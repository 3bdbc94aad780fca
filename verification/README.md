# Fused Triton scheduling, modelled and proved

The system runs a group of signal processing blocks in one thread. Three parts meet in its loop, and this
project models all three in Dafny and proves what they promise together.

* **The worker thread** (`thread_wrapper`): an event loop over a message queue, with a start gate, a
  drain-then-work cycle, a switch between blocking and non-blocking pops, a flush protocol that feeds itself
  messages, and two ways to stop. `Worker.dfy` is a step machine: the worker's program counter and variables, a
  caller of `start()`, a caller of `stop()`, any pushes by other threads, and spurious wake-ups, interleaved in
  every order. A step that is not enabled changes nothing, so every finite sequence of steps is a run and "for
  every run" means for every interleaving. `WorkerInvariants.dfy` proves one inductive invariant over state and
  event totals; `WorkerTheorems.dfy` and `WorkerProgress.dfy` draw the safety, counting and termination results
  from it. `ThreadWrapper.dfy` is the thread as it is written, a class whose methods update the shared fields in
  the same loops and branches; other threads act between any two of its steps, and every step it takes is proved
  to be the machine's step, so the results about runs are results about it.
* **The fused executor** (`graph_executor`): one iteration checks the first block's inputs and the last block's
  outputs, gives every block the same counts, runs all blocks with a retry loop, waits for the last block's
  callback, publishes reads and writes, and notifies the neighbours. `GraphExecutor.dfy` defines the iteration
  on values, `ExecutorObject.dfy` is the object whose loops update ports and buffers and is proved equal to it,
  `ExecutorTheorems.dfy` and `ExecutorTrace.dfy` hold for every iteration, `Conservation.dfy` and
  `ConservedRuns.dfy` follow the item counts over whole runs, with the neighbours publishing and consuming between
  iterations, `PortLimits.dfy` says when the shared counts exceed what a port has, and `Handshake.dfy` is the
  wait for the asynchronous callback as a protocol over all interleavings with the client thread.
* **The batched inference call** (`triton_model_impl`, `triton_block_triton`): `Shapes.dfy` (sizes, in machine
  integers), `Names.dfy` (registered names and segment keys), `TritonModel.dfy` (the model wrapper whose tensors
  are reshaped in place, and the block), `Streaming.dfy` (the published stream is the model function applied batch by
  batch to the input consumed, however the iterations cut it) and `Inference.dfy`, which joins the parts: the requests that the block makes, with the shapes that the model
  wrapper gives their tensors, ask for exactly those batches of exactly those items.

`Widths.dfy` has the machine integers: 32-bit and 64-bit conversions, truncating division, rounding to multiples;
`Options.dfy` a value that may be missing.

## What is assumed

* `do_work` of a block keeps the contract of a sync block: an attempt that returns OK or DONE consumes from every
  input and produces on every output as many items as the smaller of its two counts allows, in whole output
  multiples. What it returns is arbitrary: iterations are quantified over every sequence of return values of every
  block (`scripts`).
* Every port used has a buffer, no block is hierarchical, the first block has an input and the last one an output,
  and an output multiple that is set does not narrow to zero. The source dereferences or divides by these without
  a test.
* A buffer has one reader; its space is its capacity less what is published and not yet consumed.
* Every attempt of the last block that returns OK or DONE has submitted its request, and a submitted request runs its
  callback exactly once. Without the first the executor waits for ever, as `Handshake.WaitEndsExactlyWhen` says.
* A call of `run_one_iteration` that the worker makes returns: beyond the wait, some attempt of every block ends its
  retry loop (`ExecutorTheorems.ReturnsExactlyWhen`). The results that the worker leaves, comes to rest or is never
  blocked (`ExitIsReached`, `StopReturns`, `ThreadBody` and the others) count such a call as one of its steps.
* Shared memory holds a buffer's unread items from the read index of its segment on. The server reads a request's
  tensor, as many items as its shape has elements, from the offset in the segment that the request names, and it applies the model function to each row along the leading dimension; what that
  function computes is arbitrary.
* Accesses to the plain `bool` stop flag by two threads take effect one after the other.

## Where the code falls short

* `WorkerTheorems.StopCanCostAPass`: passes can exceed twice the popped messages by one; `WorkerTheorems.NoBusySpinning`
  says exactly when: stop() has set the flag between the two loop tests of an empty pass, and that pass has ended.
* `WorkerTheorems.StopWithoutStartHangs`: `stop()` returns only when `start()` has opened the gate; before that it
  joins a thread that sleeps for ever.
* `Handshake.WaitCanBeOrphaned`: `work` returns OK whether or not it has handed a callback over, and for a synchronous
  model, which is the default, or after a failed submission it has not (schedulers/triton/lib/graph_executor.cc:200-205,
  blocklib/torchdsp/lib/triton_model_impl.cc:362-376). `Handshake.WaitEndsExactlyWhen` and `Handshake.AttemptWaits` say
  that the wait can end exactly when the callback was handed over, `Inference.WorkServesRound` that a synchronous
  model's request never hands one over.
* `Conservation.ItemsCanBeLost`: when the last of several blocks reports insufficient items or room, the other
  blocks' reads are posted and nothing is written, so the items are gone; `Conservation.ConservationExactly` and
  `ConservedRuns.RunConserves` say exactly when that happens.
* `Conservation.InternalBufferCanBeOverrun`: with three or more blocks the same round posts the middle blocks' reads,
  so an internal buffer loses items that were never in it and can end below empty; `ConservedRuns.InternalFillStays`
  says by how much and exactly when.
* `PortLimits.SecondInputCanBeOverrun`: the count granted to the first input is used for every input, so another
  input can be read past its end, and `PortLimits.SecondOutputCanBeOverfilled` the same for an output's room;
  `PortLimits.OverrunExactly` and `PortLimits.OverfillExactly` say exactly when, for a fused group of any length.
* The comment at schedulers/triton/lib/graph_executor.cc:86-88 speaks of the minimum over all output buffers; the
  code starts afresh for each port and hands out the first port's count. The model follows the code.
* `ExecutorTheorems.RefusedDoesNothing`: an iteration refused for its inputs returns at line 76, so the
  input-blocked callbacks it asks for at line 75 are never made.
* `ExecutorTrace.StatusExactly`: the branch that reports BLKD_IN for a source without output
  (schedulers/triton/lib/graph_executor.cc:237-247) is never taken by a last block whose room a size holds and whose
  output multiple fits 32 bits, since its grant is positive.
* `Names.KeyAmbiguousExactly`: unlike registered names, shared memory keys do not decode uniquely.

## Model

| member | source | states |
|---|---|---|
| `WorkerInvariants.StepKeeps` | schedulers/triton/lib/thread_wrapper.cc:28-142 | every step of the worker, of start(), of stop() and of any pusher keeps the joint invariant of gate, requests, flush, DONE reports, stop and passes |
| `WorkerInvariants.InvHolds` | schedulers/triton/lib/thread_wrapper.cc:169-310 | that invariant holds behind every run, whatever the interleaving |
| `WorkerTheorems.NothingBeforeStart` | schedulers/triton/lib/thread_wrapper.cc:198-218 | no message is popped and no work call made before start() has started every block |
| `WorkerTheorems.StartLeadsToWork` | schedulers/triton/lib/thread_wrapper.cc:28-39 | in every run the start NOTIFY_ALL stays queued from its push until it is popped, and once start() is through an unstopped worker that is at rest has made a work call |
| `WorkerProgress.StartIsFollowedByWork` | schedulers/triton/lib/thread_wrapper.cc:197-302 | with no EXIT on its way, a started worker left to itself comes to rest within a bound, behind a work call |
| `WorkerTheorems.NoRequestIsLost` | schedulers/triton/lib/thread_wrapper.cc:207-306 | between a popped DONE, NOTIFY_OUTPUT, NOTIFY_INPUT or NOTIFY_ALL and any later blocking pop or the thread's exit there is a work call |
| `WorkerTheorems.WorkIsAskedFor` | schedulers/triton/lib/thread_wrapper.cc:207-302 | work calls never outnumber the popped messages of those four kinds, and are fewer while one has no call behind it |
| `WorkerTheorems.EventsMean` | schedulers/triton/lib/thread_wrapper.cc:199-307 | what the events of a history stand for: entering a blocking pop, taking the oldest message, a work call, the end of a pass, leaving the loop, the flags turning |
| `WorkerTheorems.TotalsCount` | schedulers/triton/lib/thread_wrapper.cc:199-307 | the totals that the results speak of are the numbers of those events in the history |
| `WorkerTheorems.TotalsCountSince` | schedulers/triton/lib/thread_wrapper.cc:88-138 | and those since the last DONE, stop flag, work call or EXIT the numbers behind it |
| `WorkerTheorems.FlushNeverStalls` | schedulers/triton/lib/thread_wrapper.cc:88-138 | from a popped DONE to the first FLUSHED there is work pending or a NOTIFY_ALL queued, so an unstopped worker is never blocked |
| `WorkerTheorems.FlushedExactly` | schedulers/triton/lib/thread_wrapper.cc:88-138 | FLUSHED reports since the last DONE number max(0, w - max(1, flush_count) + 1) for w settled work calls, w with flushing off, none before the first DONE |
| `WorkerTheorems.AllFlushes` | schedulers/triton/lib/thread_wrapper.cc:88-138 | over any number of DONEs the FLUSHED reports of a run are those of the last DONE and, for each earlier one, those due for the work calls made until the next |
| `WorkerTheorems.DoneReportsAddUp` | schedulers/triton/lib/thread_wrapper.cc:74-82 | DONE reports equal popped SIGNAL_DONEs plus iterations that returned DONE |
| `WorkerTheorems.StopIsBounded` | schedulers/triton/lib/thread_wrapper.cc:202-218 | behind the stop flag at most one more message is popped and one more work call made |
| `WorkerTheorems.NothingBehindExit` | schedulers/triton/lib/thread_wrapper.cc:246-252 | no message behind the first popped EXIT is popped |
| `WorkerTheorems.StopNeverBlocks` | schedulers/triton/lib/thread_wrapper.cc:41-51 | once stop() has pushed its EXIT a worker in the loop can step if and only if it is not asleep at the gate, and always when start() is through |
| `WorkerTheorems.StopWithoutStartHangs` | schedulers/triton/lib/thread_wrapper.cc:41-46 | in every run the join of stop() returns only behind an open gate with every block started, and the gate is open if and only if start() has taken all its steps but the last |
| `WorkerTheorems.NoBusySpinning` | schedulers/triton/lib/thread_wrapper.cc:201-306 | passes exceed twice the popped messages, and then by one, if and only if stop() set the flag between the two loop tests of an empty pass that has ended since, two passes having been made for every message before |
| `WorkerTheorems.StopCanCostAPass` | schedulers/triton/lib/thread_wrapper.cc:202-218 | for a group of any size a complete run with one pass and no popped message |
| `WorkerProgress.ExitIsReached` | schedulers/triton/lib/thread_wrapper.cc:202-297 | with an EXIT queued or popped, a started worker leaves within a bound that no other thread can push away, and can step until then |
| `WorkerProgress.StopReturns` | schedulers/triton/lib/thread_wrapper.cc:41-51 | after stop() has pushed its EXIT to a started group the worker leaves within nine of its own steps, never blocked |
| `WorkerProgress.WorkIsBounded` | schedulers/triton/lib/thread_wrapper.cc:207-297 | over any run the worker's steps are bounded by what is queued and supplied, a DONE weighing flush_count + 2 messages: no loop runs on by itself |
| `WorkerProgress.QuietFlush` | schedulers/triton/lib/thread_wrapper.cc:88-138 | a DONE reaching a blocked worker with nothing else going on makes, within a bound, exactly max(1, flush_count) work calls (one with flushing off) and one FLUSHED, then the worker blocks again |
| `ThreadWrapper.ThreadWrapper.Start` | schedulers/triton/lib/thread_wrapper.cc:28-39 | starts every block, then pushes NOTIFY_ALL, then opens the gate and wakes the worker, in the machine's steps |
| `ThreadWrapper.ThreadWrapper.Stop` | schedulers/triton/lib/thread_wrapper.cc:43-44 | sets the flag, then pushes EXIT, in the machine's steps |
| `ThreadWrapper.ThreadWrapper.Join` | schedulers/triton/lib/thread_wrapper.cc:45-47 | the join returns exactly when the thread has left |
| `ThreadWrapper.ThreadWrapper.Kill` | schedulers/triton/lib/thread_wrapper.cc:67-70 | at any time: appends EXIT to the queue and changes nothing else |
| `ThreadWrapper.ThreadWrapper.StartFlushing` | schedulers/triton/include/gnuradio/schedulers/triton/thread_wrapper.h:99-105 | flushing on, count zero, one NOTIFY_ALL at the end of the queue |
| `ThreadWrapper.ThreadWrapper.PopMessage` | schedulers/triton/include/gnuradio/schedulers/triton/thread_wrapper.h:76-80 | takes the oldest message, or reports an empty queue and takes nothing |
| `ThreadWrapper.ThreadWrapper.HandleMessage` | schedulers/triton/lib/thread_wrapper.cc:220-296 | work is asked for exactly by DONE, NOTIFY_OUTPUT, NOTIFY_INPUT and NOTIFY_ALL; what each kind of message does to queue, monitor, stop flag and flush state, being one step of the machine |
| `ThreadWrapper.ThreadWrapper.Settle` | schedulers/triton/lib/thread_wrapper.cc:84-141 | the flush protocol: the count, and whether FLUSHED goes to the monitor or NOTIFY_ALL to the queue, being one step of the machine |
| `ThreadWrapper.ThreadWrapper.HandleWorkNotification` | schedulers/triton/lib/thread_wrapper.cc:72-142 | exactly one iteration, with the given result: DONE to the monitor when it returned it, then the flush count and FLUSHED when due, and true exactly while flushing goes on and the result was READY, READY_NO_OUTPUT or BLKD_OUT |
| `ThreadWrapper.ThreadWrapper.WaitForStart` | schedulers/triton/lib/thread_wrapper.cc:197-199 | gets past the gate or is asleep with nobody left to act |
| `ThreadWrapper.ThreadWrapper.Drain` | schedulers/triton/lib/thread_wrapper.cc:206-297 | ends behind the drain loop with the machine's flags, or rests on an empty queue with nobody left to act; terminates without a bound of its own |
| `ThreadWrapper.ThreadWrapper.ThreadBody` | schedulers/triton/lib/thread_wrapper.cc:197-310 | for every behaviour of the other threads the loops go through a run of the machine and end only by leaving or at rest; they have left when all of start() and stop() has happened; no request is then without its work call, and DONE and FLUSHED reports at the monitor are exactly those due, for any number of DONEs |
| `Handshake.WaitEndsOnItsOwnCallback` | schedulers/triton/lib/graph_executor.cc:183-207 | the wait is passed only behind the callback installed for that same do_work, the latest one |
| `Handshake.FiresOnceInstalled` | blocklib/torchdsp/triton_block/triton_block_triton.h:25-35 | a callback fires only behind its own installation and only once |
| `Handshake.NothingPublishedBeforeTheWait` | schedulers/triton/lib/graph_executor.cc:200-284 | between a do_work that returned OK or DONE and anything posted its wait is passed |
| `Handshake.NoLostWakeup` | schedulers/triton/lib/graph_executor.cc:184-205 | an executor asleep with the flag set always has a notify still to come |
| `Handshake.InsufficientIsFinal` | schedulers/triton/lib/graph_executor.cc:209-217 | insufficient items or room of the last block ends its attempts: the iteration is published before another begins |
| `Handshake.OtherReturnsRetry` | schedulers/triton/lib/graph_executor.cc:169-252 | an iteration is published only behind an attempt that returned OK, DONE, or insufficient items or room, never behind one that returned anything else |
| `Handshake.WaitIsBounded` | schedulers/triton/lib/graph_executor.cc:200-207 | a wait whose request was submitted is over within twelve moves, plus two for every spurious wake-up |
| `Handshake.WaitIsNeverStuck` | schedulers/triton/lib/graph_executor.cc:200-207 | and there always is such a move |
| `Handshake.OrphanedWaitNeverEnds` | blocklib/torchdsp/lib/triton_model_impl.cc:362-376 | a do_work that returns OK or DONE without handing the callback over leaves the executor waiting for ever |
| `Handshake.WaitEndsExactlyWhen` | schedulers/triton/lib/graph_executor.cc:200-205 | a wait can end if and only if its request was handed over |
| `Handshake.AttemptWaits` | schedulers/triton/lib/graph_executor.cc:183-205 | from any point where an attempt begins, one that returns OK waits, and for ever if and only if it handed nothing over |
| `Handshake.WaitCanBeOrphaned` | schedulers/triton/lib/graph_executor.cc:183-205 | the first attempt of a thread can already wait for ever |
| `Widths.RoundDownExact` | schedulers/triton/lib/graph_executor.cc:13-16 | the narrowed round_down gives the greatest multiple exactly when the multiple fits 32 bits or the count is below its narrowed value |
| `Widths.ConversionsExact` | schedulers/triton/lib/graph_executor.cc:57-64 | each conversion gives the one number of its range that differs from the given one by a multiple of the range's size |
| `Widths.QuotientTruncates` | blocklib/torchdsp/triton_block/triton_block_triton.cc:53-55 | the quotient of two machine integers truncates towards zero |
| `ExecutorTheorems.RoomIsFreed` | schedulers/triton/lib/graph_executor.cc:255-284 | a post_read frees as much room as it takes items, a post_write the other way round, and items and room make up the capacity |
| `ExecutorTheorems.SyncItemsAreGreatest` | schedulers/triton/include/gnuradio/schedulers/triton/scheduler_triton.h:23-25 | a sync block processes the greatest number of items in whole multiples that its counts allow |
| `ExecutorTheorems.ReadyExactly` | schedulers/triton/lib/graph_executor.cc:39-146 | an iteration is ready if and only if every input of the first block and every output of the last is, in terms of what their buffers answer, hold, have room for and ask for |
| `ExecutorTheorems.OutputGrantIsOptimal` | schedulers/triton/lib/graph_executor.cc:90-138 | an output port is ready exactly when it can answer, has the room asked for and fits one multiple, and gets the greatest multiple that room, max_fill and an int allow |
| `ExecutorTheorems.InputGrantExact` | schedulers/triton/lib/graph_executor.cc:56-69 | an input's grant is what is available cut to max_read exactly when max_read survives the conversion to int or is out of the way |
| `ExecutorTheorems.InputReadyExact` | schedulers/triton/lib/graph_executor.cc:45-61 | an input is ready when its buffer answers and holds one item and min_read items, exactly when min_read survives the conversion to int or does not matter |
| `ExecutorTheorems.RefusedDoesNothing` | schedulers/triton/lib/graph_executor.cc:73-149 | with an input that is not ready nothing at all happens and BLKD_IN is returned; with the inputs ready and an output that is not, no block is called, nothing is posted and BLKD_OUT is returned |
| `ExecutorTheorems.ReturnsExactlyWhen` | schedulers/triton/lib/graph_executor.cc:168-252 | given that each wait for the last block's callback ends, a ready iteration returns exactly when every block returns OK or DONE at some attempt, or the last one insufficient items or room |
| `ExecutorTheorems.DoneExactlyWhen` | schedulers/triton/lib/graph_executor.cc:229-233 | DONE is reported exactly when the iteration was ready and the last block's terminal result was DONE |
| `ExecutorTheorems.PublishedBeforeNotified` | schedulers/triton/lib/graph_executor.cc:255-289 | in every iteration all do_work calls come first, all post_reads before any notification upstream, all post_writes before any downstream |
| `ExecutorTrace.StatusExactly` | schedulers/triton/lib/graph_executor.cc:73-253 | the status of every iteration that returns, for each check and each return value of the last block |
| `ExecutorTrace.LastDecides` | schedulers/triton/lib/graph_executor.cc:200-252 | with the other blocks' loops ending, the first return value of the last block that is no retry decides: READY, DONE, BLKD_IN or BLKD_OUT |
| `ExecutorTrace.PortsExactly` | schedulers/triton/lib/graph_executor.cc:156-252 | behind an iteration every port of every block has the counts granted to the first input and the last block's first output, and has moved what a sync block processes of them, or nothing |
| `ExecutorTrace.CallsCounted` | schedulers/triton/lib/graph_executor.cc:142-316 | how often every iteration makes each notification and each blocked callback: one notification a port when ready, one callback a port of the group for want of items or of room, one more notification where it helped, and nothing else |
| `ExecutorTrace.UnclogsExactlyWhen` | schedulers/triton/lib/graph_executor.cc:208-316 | a ready iteration makes the input-blocked callbacks exactly when the last block reported insufficient items, the output-blocked ones exactly for insufficient room |
| `ExecutorTrace.CalledInOrder` | schedulers/triton/lib/graph_executor.cc:142-252 | the do_work calls of every iteration: none when refused, otherwise in block order, each block exactly as often as its retry loop asks |
| `ExecutorObject.Executor.QueryInput` | schedulers/triton/lib/graph_executor.cc:39-71 | with limits that an int holds: ready exactly when the buffer answers and holds one item and min_read items, and then granted what is available cut to max_read |
| `ExecutorObject.Executor.QueryOutput` | schedulers/triton/lib/graph_executor.cc:84-139 | ready exactly when the buffer answers and has room for min_fill items and one multiple, and then granted the greatest multiple up to room and max_fill |
| `ExecutorObject.Executor.CheckInputs` | schedulers/triton/lib/graph_executor.cc:36-78 | ready exactly when every input of the first block is; the ports up to the first that is not hold their own grants and nothing else changes |
| `ExecutorObject.Executor.CheckOutputs` | schedulers/triton/lib/graph_executor.cc:80-146 | the same for the outputs of the last block |
| `ExecutorObject.Executor.PrepareBlock` | schedulers/triton/lib/graph_executor.cc:156-165 | every port of a block gets the counts of the first input and of the last block's first output, and has moved nothing yet |
| `ExecutorObject.Executor.RunBlock` | schedulers/triton/lib/graph_executor.cc:168-252 | the retry loop ends exactly when an attempt returns OK or DONE or, for the last block, insufficient items or room, at the first such attempt, and only that one moves items |
| `ExecutorObject.Executor.RunBlocks` | schedulers/triton/lib/graph_executor.cc:151-253 | every block up to the first that stays stuck has run on the counts of the first input and last output, and the status is the last one's |
| `ExecutorObject.Executor.Publish` | schedulers/triton/lib/graph_executor.cc:255-316 | the posts change the buffers, in that order, and the callbacks follow the last block's result |
| `ExecutorObject.Executor.RunOneIteration` | schedulers/triton/lib/graph_executor.cc:18-320 | the loops over ports and blocks leave ports, buffers, calls and outcome as the iteration on values says, for all return values of all blocks; with a port that is not ready BLKD_IN or BLKD_OUT and no buffer touched |
| `Conservation.IterationMoves` | schedulers/triton/lib/graph_executor.cc:255-284 | a ready iteration moves one and the same count over every port of every block; when the last block does not finish, the others still consume it and nothing is written |
| `Conservation.ConservationExactly` | schedulers/triton/lib/graph_executor.cc:208-284 | an iteration moves the same count over every edge if and only if its last block finished, is the only one, or nothing could be processed |
| `Conservation.ItemsCanBeLost` | schedulers/triton/lib/graph_executor.cc:209-217 | two blocks of which the last reports insufficient items: three items are consumed and none published |
| `ConservedRuns.RunMoves` | schedulers/triton/lib/graph_executor.cc:151-284 | over any run, neighbours active in between, every buffer's counters grow by the run's totals for each of its readers and writers |
| `ConservedRuns.RunConserves` | schedulers/triton/lib/graph_executor.cc:151-284 | over any run the total read from a first-block input equals the total published to a last-block output if and only if no round lost items |
| `ConservedRuns.InternalFillStays` | schedulers/triton/lib/graph_executor.cc:255-284 | over any run an internal buffer loses what the rounds that were not smooth took, unless its reader is in the last block; its fill is unchanged if and only if the reader is there or every round was smooth |
| `Conservation.InternalBufferCanBeOverrun` | schedulers/triton/lib/graph_executor.cc:256-284 | three blocks of which the last reports insufficient items: the buffer between the first two ends three items below empty |
| `PortLimits.OverrunExactly` | schedulers/triton/lib/graph_executor.cc:156-263 | an iteration of any fused group, whatever it returns, reads an input of its first block past its end if and only if that input holds less than the first input and first output let through and the block consumes |
| `PortLimits.OverfillExactly` | schedulers/triton/lib/graph_executor.cc:162-281 | it overfills an output of its last block if and only if that output has less room than that and the block produces |
| `PortLimits.SecondOutputCanBeOverfilled` | schedulers/triton/lib/graph_executor.cc:162-165 | room for eight items and for one: the second output ends up with three more than it has room for |
| `PortLimits.FewestFirstCovers` | schedulers/triton/lib/graph_executor.cc:157-160 | in a fused group with the fewest items on the first input every input has what the iteration consumes |
| `PortLimits.LeastRoomFirstFits` | schedulers/triton/lib/graph_executor.cc:162-165 | with the least room on the first output every output has room for what it produces |
| `PortLimits.SecondInputCanBeOverrun` | schedulers/triton/lib/graph_executor.cc:157-160 | four items and one: the second input ends up read three items past its end |
| `Streaming.ChunkingIndependence` | schedulers/triton/lib/graph_executor.cc:151-284 | over any run of a one-block group the rounds cut the input into consecutive whole batches: the model function on each round's batches, joined, is the model function on all that was consumed |
| `Streaming.CoveredAreServed` | schedulers/triton/lib/graph_executor.cc:114-138 | rounds whose inputs hold what they consume cut their input at whole batches inside what was published |
| `Streaming.TwoCutsAgree` | schedulers/triton/lib/graph_executor.cc:151-284 | two runs that consume as much publish the same, however differently they cut it |
| `Streaming.OutputsLength` | blocklib/torchdsp/triton_block/triton_block_triton.cc:66 | as many items are published as consumed |
| `PortLimits.FewestFirstStreams` | schedulers/triton/lib/graph_executor.cc:114-138 | the same from the executor's guards alone: with the fewest items on the first input in every round, a run publishes the model function on what it consumes, batch by batch |
| `Inference.RequestMatchesRound` | blocklib/torchdsp/lib/triton_model_impl.cc:326-341 | the tensor that a round's request gives to an input has as many elements as the round consumes, in rows of one batch |
| `Inference.WorkServesRound` | blocklib/torchdsp/triton_block/triton_block_triton.cc:29-68 | a call of work for a round reports what the round gives and hands over tensors of as many elements as it consumes, in regions at the ports' segments and indexes that hold them exactly when the ports have that many items; only a synchronous model leaves the executor waiting |
| `Inference.ReplyIsProduced` | blocklib/torchdsp/lib/triton_model_impl.cc:317-376 | the server's answer to a request, read from the regions that it hands over, is the model function on the batches that the round consumes |
| `Inference.RequestsStream` | blocklib/torchdsp/triton_block/triton_block_triton.cc:29-68 | over any run with the fewest items on the first input, the answers to the block's requests, read from their regions and joined, are the model function on the input consumed, batch by batch |
| `Shapes.ParseShape` | blocklib/torchdsp/lib/triton_model_impl.h:115-122 | as many dimensions as the server gives, each the dimension or its opposite and never negative |
| `Shapes.VolumeIsProduct` | blocklib/torchdsp/lib/triton_model_impl.cc:187-194 | the number of elements is a product: one for no dimension, the dimension for one, and multiplied for shapes joined |
| `Shapes.BytesExact` | blocklib/torchdsp/lib/triton_model_impl.cc:253-256 | the stored size is the product of the absolute dimensions and the item size when a size holds it, and its remainder otherwise |
| `Shapes.NumElements` | blocklib/torchdsp/lib/triton_model_impl.cc:187-194 | multiplying up in a wrapping 64-bit integer gives the product of the dimensions modulo 2^64 |
| `Shapes.Itemsize` | blocklib/torchdsp/lib/triton_model_impl.cc:202-216 | four, two or one bytes for exactly the types of that width, nothing for any other |
| `Shapes.UsableExactly` | blocklib/torchdsp/lib/triton_model_impl.cc:108-110 | a tensor is kept exactly when its type is supported, no dimension is zero and its byte size is no multiple of 2^64 |
| `Shapes.WholeItems` | blocklib/torchdsp/lib/triton_model_impl.cc:253-256 | every stored byte size is a positive multiple of its item size |
| `Shapes.UsablePrefix` | blocklib/torchdsp/lib/triton_model_impl.cc:104-113 | the longest prefix of usable tensors: all before it usable, the next one not |
| `Shapes.OutputMultipleExact` | blocklib/torchdsp/triton_block/triton_block_triton.cc:24-25 | for the sequence of absolute dimensions, the output multiple is its product if and only if the bytes of one batch fit an int, and never more |
| `Shapes.ItemsPerBatchExact` | blocklib/torchdsp/triton_block/triton_block_triton.cc:24-25 | for any sizes, items per batch are the truncating quotient of the byte size read as an int and the item size |
| `Shapes.GrantIsWholeBatches` | blocklib/torchdsp/triton_block/triton_block_triton.cc:53-66 | what the executor grants for that multiple is a positive number of whole batches: batch size times items per batch is what is produced |
| `Shapes.TensorHoldsBatches` | blocklib/torchdsp/lib/triton_model_impl.cc:326-332 | after any history of calls a tensor holds current batch size times its own batch if and only if its leading dimension is 1 or -1, unless there is nothing to hold |
| `Shapes.InputTensorMatches` | blocklib/torchdsp/lib/triton_model_impl.cc:326-332 | an input tensor takes as many elements as items are consumed if and only if its batch is as large as the output's |
| `Names.ParseRegistered` | blocklib/torchdsp/lib/triton_model_impl.cc:281-283 | a registered name reads back as the counter, direction and tensor name it was made of |
| `Names.RegisteredInjective` | blocklib/torchdsp/lib/triton_model_impl.cc:310-312 | registered names are equal only for equal triples |
| `Names.NamesAsWritten` | blocklib/torchdsp/lib/triton_model_impl.cc:281-312 | registered names of both sides and a key as they are written |
| `Names.KeyAmbiguousExactly` | blocklib/torchdsp/lib/triton_model_impl.cc:249-250 | a shared memory key also belongs to another name and number if and only if the number has several digits or the name ends in a number |
| `TritonModel.NamesStayDistinct` | blocklib/torchdsp/lib/triton_model_impl.cc:266-315 | over any sequence of model constructions all registered names are pairwise distinct and read back uniquely |
| `TritonModel.Counters.Register` | blocklib/torchdsp/lib/triton_model_impl.cc:281-285 | draws the next number of its side, and keeps all registrations so far distinct |
| `TritonModel.AllocateShm` | blocklib/torchdsp/lib/triton_model_impl.cc:243-257 | sizes and key of a tensor, drawing a segment number even for a tensor that is not kept |
| `TritonModel.Configure` | blocklib/torchdsp/lib/triton_model_impl.cc:104-127 | one constructor loop: memories, tensors and names belong to exactly the longest usable prefix, in order, and a segment number is drawn for each of those and for the one that ends them |
| `TritonModel.Model.constructor` | blocklib/torchdsp/lib/triton_model_impl.cc:86-144 | both sides keep their longest usable prefix with equal lengths, nothing when the server is not healthy, and the shared counters advance accordingly |
| `TritonModel.Model.Infer` | blocklib/torchdsp/lib/triton_model_impl.cc:317-381 | every input tensor gets the batch size as leading dimension whatever calls came before, every tensor its port's segment, bytes and index, and the callback goes along only when asynchronous |
| `TritonModel.MakeModel` | blocklib/torchdsp/lib/triton_model_impl.cc:20-32 | no model when the constructor kept no input, else one with both usable prefixes |
| `TritonModel.MakeBlock` | blocklib/torchdsp/triton_block/triton_block_triton.cc:19-27 | an exception exactly when there is no model |
| `TritonModel.TritonBlock.constructor` | blocklib/torchdsp/triton_block/triton_block_triton.cc:24-25 | with a model, the output multiple is the first output's items per batch, the callback the one that does nothing |
| `TritonModel.TritonBlock.SetAsyncCallback` | blocklib/torchdsp/triton_block/triton_block_triton.h:25-28 | the callback is replaced, nothing else changes |
| `TritonModel.TritonBlock.Work` | blocklib/torchdsp/triton_block/triton_block_triton.cc:29-68 | asks for the batches that fit with the callback set last; for a positive multiple the items it reports are those it asked for if and only if the room is whole batches |

## Left out

- The Triton server and client, JSON, POSIX shared memory and health checks: foreign calls; a server's answers are parameters.
- Ring-buffer internals: the base class of the buffers is not part of this model; a buffer is two counters, its limits and its answers to the executor. The blocked callbacks are recorded as calls with an answer, not by what they do to the data.
- Ports without a buffer and hierarchical blocks: the source skips them; here every port has a buffer and no block is hierarchical.
- Data contents in groups of more than one block: only counts are proved for chains, since the region of an internal tensor is taken from counters that are posted after all blocks have run.
- Room on internal edges: never checked by the source; the counts proved hold whatever the capacity.
- Groups whose blocks have different output multiples: the conservation results are about groups that share one.
- Several readers of one buffer with different positions: a buffer has one read counter.
- FlushedExactly: does not model the wrap of the 64-bit flush count after 2^64 work calls, which no run reaches.
- NamesStayDistinct: the two registration counters are unbounded here; in the source a signed overflow after 2^31 registrations is undefined.
- NumElements: the signed 64-bit product wraps here; in the source an overflow is undefined, as is the absolute value of the smallest 64-bit integer.
- Stop: ends before the join, which is Join here, and without the blocks' own stop() that follows it.
- ChunkingIndependence: says how rounds cut the input; that the server answers those batches is Inference.RequestsStream.
- One caller each of start() and stop(): a second start(), run(), wait() and the blocks' stop() and done() hooks are not modelled; stop_blocks has no effect on the thread's state.
- Message-port callbacks and parameter handlers: such messages are popped and change nothing the model tracks.
- Sleep durations, logging, tags, thread names and affinity.
- What a do_work may do to the counts of a port it is given: the executor's counts are read as it set them.
- Lifetime of the per-attempt mutex, flag and condition variable: the callback notifies after unlocking, when the waiter may already be gone.
- The wrapper's move constructor and assignment, and its size and signature getters other than those of the first output.
