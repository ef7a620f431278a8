# Verified models of cutils

cutils is a static-allocation runtime for RTOS code: small protocols, each built on the one below. This project models
its hard core in Dafny and proves what the code relies on. `dafny verify dfyconfig.toml` checks everything.

## The pieces

**The concurrent stack.** `TsQueue.dfy` is the bounded queue: every access is a section of code that holds the mutex, so
an interleaving of any number of threads, with spurious wake-ups and timeouts, is a sequence of sections.
`PoolModel.dfy`, `Pool.dfy` and `PoolBlocks.dfy` are the reference-counted pool, a transition system over single atomic
operations of any number of threads, beside a class over the queue whose calls amount to those steps.
`DispatchQueue.dfy` is the worker with any number of posting and destroying threads, up to the release of pool and queue;
it takes a pool or queue operation for one step, and `Layers.dfy` proves which step or section of the two models below
that is. `AsyncioModel.dfy` is one stream with one control thread and two workers, one shared worker, or one channel
only; a step is one load, compare-and-swap, store, post, flag operation, or pool creation or destruction.
`AsyncioInvariant.dfy`, `AsyncioCycle.dfy` and `AsyncioTokens.dfy` hold the invariant and its preservation; `Asyncio.dfy`
states what follows for every run, over any number of start/stop cycles. Beside it `AsyncioCalls.dfy` says what each
step of a client's calls and of rx_f's read does, and `AsyncioProgress.dfy` that no call waits for a completion that
nobody is left to signal; `AsyncioFrames.dfy` and `AsyncioDelivery.dfy` are what they rest on. `EventFlag.dfy` is the
flag word that the completions are signalled through.

**The ring structures.** `Rings.dfy` defines reading a memory round its end. `RingBuffer.dfy` (one call at a time, with
every truncation from 64 to 32 bits), `RingProtocol.dfy` (writer and reader interleaved at every load, byte copied and
publication), `Accumulator.dfy` and `LogBuffer.dfy` refine plain sequences.

**The intrusive structures.** `KList.dfy` holds the list macros over heap elements; `KQueue.dfy`, `FreeList.dfy` and
`Notifier.dfy` are the structures built on them, `Bst.dfy` the search tree that reuses the two links. Popping leaves the
popped element in the `prev` of the new head, so a linked list here says nothing about the first `prev`, and the notifier
is proved correct under that.

**State machines.** `StateMachine.dfy` and `EventLoop.dfy` give the values, the grammar of callback calls and its meaning,
and the theorems about every run; `StateMachineRecord.dfy` and `EventLoopRecord.dfy` are the records the functions
update, each method proved to do what the value says.

## What came out

- Both asyncio completions can be fired by both workers in one cycle: after `asyncio_start` has returned through one of
  them, the other can store Initialized over the Uninitializing of an `asyncio_stop` that has begun
  (`Asyncio.LateStoreHappens`). What each call promises holds all the same, because starter and finisher of a channel run
  on one worker, behind everything the previous cycle left there: once start has returned the only stores and signals
  still to come are those of Initialized, and once stop has returned those of Uninitialized (`Asyncio.LateStoresRepeat`,
  `Asyncio.NoneIsQueued`).
- A stream configured without any channel can never be started: `asyncio_start` waits, and nobody has a flag to send
  (`AsyncioProgress.NothingConfiguredNeverStarts`). With a channel, whenever `asyncio_start` or `asyncio_stop` waits some
  worker has a starter or a finisher to run (`AsyncioProgress.WaitsAreServed`).
- `asyncio_stop` can return before a pool has been destroyed (`Asyncio.PoolCanOutliveStop`); it then exists exactly while
  its finisher is between giving up the channel and the destruction (`Asyncio.PoolsWhileDown`).
- Before the release an enqueue in `dispatch_async_f` fails exactly when the kill request is still queued together with
  every other block, and the kill request finds no room exactly when every block is queued; both happen
  (`DispatchQueues.EnqueueCanFail`, `DispatchQueues.KillCanFail`).
- `dispatch_queue_destroy` does not wait for posts that have passed the destroying check: the release overtakes none of
  them, in any run that follows, exactly if no thread is inside `dispatch_async_f` once the flag is set
  (`DispatchQueues.ReleaseOvertakesNoPostIff`).
- Of the three assertions of `ring_buffer_get_data_at_range` only the last can fail (`RingBuffers.OnlyTheLastCanFail`).
  It compares 32-bit sums: for `ring_buffer_get_data` it fails exactly when the unread bytes pass 2^32 and the bytes
  handed out do not reach it (`RingBuffers.GetDataAssertions`, with a case). A range behind the first byte is cut at the
  number of unread bytes and not at their end.
- `accumulator_advance` by more than there is puts old bytes in front of the window, and it always returns false.
- The header says that a stopped state machine discards events; in the code the next event follows a null state pointer
  (`StateMachines.EventsAfterStop`). The model follows the code.
- `event_flag_wait` returns false when waiting on the condition variable ends with ETIMEDOUT, EINVAL or EPERM. Any other
  error it takes for success: of the calls that return true, those held their flags whose last pause did not end so
  (`EventFlags.WaitHeldItsFlags`), and the others did not (`EventFlags.ErrorIsTakenForSuccess`).
- `free_list_put(list, NULL)` counts an item that is not there, so that an item that is out is refused exactly when null
  was put as often as there are items out (`FreeLists.FreeList.ItemsOutCanBePut`).
- `log_buffer_init` does not leave an escape sequence.
- A list, queue or free list that is empty takes over the links of the first element put into it, so these have to be
  null: preconditions of `Prepend`, `Append` and what is built on them.

## Model

| member | source | states |
|---|---|---|
| Asyncio.StreamMatchesControl | src/asyncio.c:126-190 | In every run, between the return of start and the next stop the stream and every configured channel are Initialized with their pools; between the return of stop and the next start all are Uninitialized |
| Asyncio.CallsAreNotRefused | src/asyncio.c:131-190 | A start on a stopped stream and a stop on a started one always win their compare-and-swap; the others change nothing |
| Asyncio.CallsReturnThroughWait | src/asyncio.c:155-185 | start and stop return only through their wait on the flag, into a stream that is up or down |
| AsyncioProgress.WaitsAreServed | src/asyncio.c:155-182 | In every run, with a channel configured, a starter runs or is queued while start waits for its flag, and a finisher while stop does |
| AsyncioProgress.WorkersCanGoOn | src/asyncio.c:309-465 | A worker with a job always has a next step |
| AsyncioProgress.NothingConfiguredNeverStarts | src/asyncio.c:131-157 | Without a channel no run gets start to return |
| Asyncio.NoAssertionFails | src/asyncio.c:381-438 | In no run does stop find a channel Initializing, nor tx_f free a token whose count is zero |
| Asyncio.PoolsAlternate | src/asyncio.c:309-379 | A pool is created only where there is none and destroyed only where there is one |
| Asyncio.PoolsWhileDown | src/asyncio.c:367-377 | After stop has returned a pool exists exactly while its finisher stands between its compare-and-swap and the destruction |
| Asyncio.PoolCanOutliveStop | src/asyncio.c:367-377 | A run in which stop returns and the rx pool still exists |
| Asyncio.OneRxJob | src/asyncio.c:440-465 | Queued rx_f, one not yet reposted and the starter's pending post are at most one, and exactly one while rx is Initialized |
| Asyncio.RxUsesItsOwnPool | src/asyncio.c:446-464 | A leftover rx_f has run before the next starter creates its pool; one past its first test belongs to the pool that exists, which stays until it ends |
| AsyncioCalls.StartedStreamAllocates | src/asyncio.c:192-207 | Between start and stop, the control thread asking for a token gets any block that is free |
| AsyncioCalls.AllocationGoesOnIff | src/asyncio.c:197 | On any thread an allocation goes on iff it finds tx Initialized |
| AsyncioCalls.AllocationTakes | src/asyncio.c:198-206 | It then takes any free block as a token the client owns, or none |
| AsyncioCalls.StartedStreamAccepts | src/asyncio.c:241-259 | Between start and stop, a send by the control thread of a token it owns is accepted: numbered next, owned by the acceptance, asked iff a callback is given, and last in the tx worker's queue |
| AsyncioCalls.SendAccepts | src/asyncio.c:241-259 | The same for any thread that runs a client, while the stream is not marked stopped and tx is Initialized |
| AsyncioCalls.SendOpens | src/asyncio.c:250 | A send is refused at once iff the stream is marked stopped, and otherwise takes the token from the client |
| AsyncioCalls.SendLoads | src/asyncio.c:251 | It hands the token back iff it does not find tx Initialized |
| AsyncioCalls.SendPosts | src/asyncio.c:253-256 | The step that accepts |
| AsyncioCalls.SendRejects | src/asyncio.c:251-256 | A send refused for its size or by the dispatch queue leaves the client its token |
| AsyncioCalls.CallerRuns | src/asyncio.c:192-259 | In every run a thread inside such a call is the control thread between its calls or a worker in a callback |
| Asyncio.TokensAreDroppedOnceInOrder | src/asyncio.c:241-259 | Every accepted send is with the tx worker in order of acceptance or has had its reference dropped, once, in that order; pending tokens are distinct, allocated and owned by nobody else |
| Asyncio.AllDroppedBeforeNextPool | src/asyncio.c:309-332 | When the tx pool is created again every acceptance has had its reference dropped |
| Asyncio.CallbacksFireOnce | src/asyncio.c:410-438 | Send callbacks fire in order, none twice, and for dropped acceptances exactly if one was given and tx_f saw the stream Initialized |
| AsyncioCalls.PassedIsWrittenOnce | src/asyncio.c:418-434 | What tx_f has passed is written once, in order of acceptance, before its callback |
| AsyncioCalls.ReadIsRecorded | src/asyncio.c:446-464 | What one read of rx_f leads to: the repost without a buffer or data, the callback with data |
| AsyncioCalls.ReadsAreDelivered | src/asyncio.c:446-464 | In every run the callback has been given what the reads found, once each, in that order, before the repost; and rx_f frees every buffer it takes |
| Asyncio.PassedMeansInitialized | src/asyncio.c:418-437 | An acceptance passes exactly in the step in which tx_f loads Initialized |
| Asyncio.LateStoresRepeat | src/asyncio.c:298-379 | In every run no finisher is under way between the return of start and the next stop, and no starter between the return of stop and the next start |
| Asyncio.NoneIsQueued | src/asyncio.c:298-379 | Nor is one queued there |
| Asyncio.LateStoreHappens | src/asyncio.c:298-307 | A run in which one worker stores the stream's state after start has returned through the other's completion |
| AsyncioTokens.StepKeepsInv | src/asyncio.c:126-465 | Every step of control thread, clients and workers keeps the whole invariant |
| TsQueues.SizeCheckIsPowerOfTwo | inc/cutils/pthread/ts_queue.h:88-91 | The size check accepts exactly the powers of two |
| TsQueues.MaskIsModulo | inc/cutils/pthread/ts_queue.h:131 | For these sizes masking with size - 1 is the remainder by size |
| TsQueues.FifoInEveryInterleaving | inc/cutils/pthread/ts_queue.h:111-173 | After any sections of any threads the items taken are a prefix of those put, at most size apart |
| TsQueues.CallInEveryInterleaving | inc/cutils/pthread/ts_queue.h:120-171 | A whole call moves its item in its last section or gives up only after a failed wait |
| TsQueues.PutEnds | inc/cutils/pthread/ts_queue.h:111-140 | An enqueue waits only while the queue is full; it is refused iff its last wait timed out, waits on iff it is full and no wake-up left, and otherwise appends its item; until then it changes nothing |
| TsQueues.TakeEnds | inc/cutils/pthread/ts_queue.h:142-173 | A dequeue likewise while the queue is empty; it is refused also after a failed wait with an item there |
| TsQueues.TsQueue.PutSection | inc/cutils/pthread/ts_queue.h:121-136 | One section of enqueue does the specified step and overwrites no live slot |
| TsQueues.TsQueue.TakeSection | inc/cutils/pthread/ts_queue.h:156-170 | One section of dequeue returns the oldest item |
| TsQueues.TsQueue.Enqueue | inc/cutils/pthread/ts_queue.h:111-140 | The call with its waits is the specified run of sections |
| TsQueues.TsQueue.Dequeue | inc/cutils/pthread/ts_queue.h:142-173 | The same for dequeue, which returns the item it took |
| TsQueues.Init | inc/cutils/pthread/ts_queue.h:83-102 | A queue is made, empty, exactly for powers of two whose mutex and conditions can be made |
| PoolProofs.StepKeepsInv | inc/cutils/pool.h:187-252 | Every atomic step of alloc, retain, free and set_destructor by any thread keeps the invariant |
| PoolProofs.EveryBlockHasOnePlace | inc/cutils/pool.h:187-252 | In every run a block is free with count 0, held with count equal to its references, or carried by one thread with count 0, and only one of these |
| PoolProofs.FreeNeverFails | inc/cutils/pool.h:238-252 | The count assertion and the requeue without waiting succeed for every owned reference in every run |
| PoolProofs.ReturnHasRoom | inc/cutils/pool.h:249 | The queue has room for a block that comes back |
| PoolProofs.DestructorRunsOncePerDrop | inc/cutils/pool.h:244-250 | An installed destructor runs once per drop to zero, before the block can be had again |
| PoolProofs.RetainAndSetDestructor | inc/cutils/pool.h:222-273 | With a reference, retaining gives one more and setting a destructor puts it on the block; neither can fail or does anything else |
| PoolProofs.ZeroIsPrivate | inc/cutils/pool.h:246-249 | Between drop and destructor no other thread changes the block's destructor or count |
| Pools.AllocIsItsSteps | inc/cutils/pool.h:187-206 | Undisturbed, the steps of alloc give the caller one reference to the oldest free block |
| Pools.FreeIsItsSteps | inc/cutils/pool.h:238-252 | Undisturbed, the steps of free amount to one reference and count less and, at zero, the run of the destructor if there is one and the return of the block |
| Pools.Pool.Alloc | inc/cutils/pool.h:187-206 | The call with its waits, between which other threads allocate, retain and free, is the specified run on the queue and the headers |
| Pools.AllocEnds | inc/cutils/pool.h:187-206 | It waits only while no block is free, gives up iff the last wait timed out or failed with a block there, and otherwise takes the block free longest |
| Pools.AllocGivesOneReference | inc/cutils/pool.h:187-206 | Whatever the others do meanwhile, it ends with a block that is free no longer, has one reference and the destructor given, or without one after a wait that timed out or failed |
| Pools.Pool.Free | inc/cutils/pool.h:238-252 | The call has that effect and runs the destructor exactly at the last reference |
| Pools.Create | inc/cutils/pool.h:136-165 | A pool is made exactly when its queue can be, and the loop leaves every block free once, with count zero and no destructor |
| DispatchQueues.StepKeepsInv | src/dispatch_queue.c:27-93 | Every step of posters, destroyers and worker, the release included, keeps the invariant |
| DispatchQueues.RunsWhatWasEnqueuedBeforeKill | src/dispatch_queue.c:27-41 | Functions run are a prefix of those enqueued, and once the worker has exited exactly those enqueued before the kill |
| DispatchQueues.RunsTheFunctionPosted | src/dispatch_queue.c:36-37 | The block the worker runs still holds the function it was filled with |
| DispatchQueues.PostsTheFunctionGiven | inc/cutils/dispatch_queue.h:99-112 | A post that passes the check enqueues the function it was given, whatever other threads do between its steps |
| DispatchQueues.EnqueueHasRoom | inc/cutils/dispatch_queue.h:99-112 | Until a kill is queued the enqueue without waiting cannot fail |
| DispatchQueues.EnqueueFailsOnlyBehindKill | inc/cutils/dispatch_queue.h:99-112 | It fails exactly when the kill and all other blocks are queued, or the queue has been released |
| DispatchQueues.EnqueueCanFail | inc/cutils/dispatch_queue.h:99-112 | A run in which it fails before the release |
| DispatchQueues.KillFailsOnlyWhenFull | src/dispatch_queue.c:73-80 | The kill finds no room exactly when every block is queued |
| DispatchQueues.KillCanFail | src/dispatch_queue.c:73-80 | A run in which it finds none |
| DispatchQueues.ReleaseOvertakesNoPostIff | src/dispatch_queue.c:73-93 | When a thread has won the flag, no run from there releases pool and queue under a post iff nobody is posting now |
| DispatchQueues.EntriesAreDistinctBlocks | inc/cutils/dispatch_queue.h:63-66 | Queue entries are distinct allocated blocks and at most one kill |
| Layers.AllocationIsItsTake | inc/cutils/pool.h:194 | The block that a post allocates is the one the pool's dequeue takes, possible at both levels or at neither |
| Layers.ReleaseIsItsReturn | inc/cutils/pool.h:249 | The worker's release is the enqueue at the end of pool_free, which succeeds |
| Layers.OtherStepsKeepFree | inc/cutils/pool.h:187-252 | No other step of the pool changes which blocks are free |
| Layers.EnqueueIsItsSection | inc/cutils/pthread/ts_queue.h:121-136 | A queue operation that appends iff there is room is the section of enqueue that does not wait |
| Layers.DequeueIsItsSection | inc/cutils/pthread/ts_queue.h:156-170 | One that takes the first entry iff there is one is the section of dequeue |
| EventFlags.SendsAreAccountedFor | inc/cutils/pthread/event_flag.h:61-151 | Every send of a flag is consumed by one clearing wait, still set, merged or cleared |
| EventFlags.NeverMoreThanSent | inc/cutils/pthread/event_flag.h:61-151 | Clearing waits plus one if set never exceed the sends of a flag |
| EventFlags.SentBetween | inc/cutils/pthread/event_flag.h:61-84 | Two waits that take the same flag have a send of it between them |
| EventFlags.CheckTakes | inc/cutils/pthread/event_flag.h:61-84 | Flag by flag: the AND types ask for all flags and the OR types for one, and the clearing types take those asked for |
| EventFlags.WaitHeldItsFlags | inc/cutils/pthread/event_flag.h:106-127 | Flag by flag: a wait that returns true held all its flags, or one, at one instant, and took them only then, iff its last pause did not end in an error other than ETIMEDOUT, EINVAL and EPERM; it returns false iff that ended in one of the three; any other wait changed nothing |
| EventFlags.WaitChecksEachTime | inc/cutils/pthread/event_flag.h:107-123 | A wait pauses only after a check that fails, goes on only after a plain wake-up, and ends as its last check or pause says |
| EventFlags.ErrorIsTakenForSuccess | inc/cutils/pthread/event_flag.h:116-125 | A wait that returns true by such an error, its flag never set |
| EventFlags.EventFlag.CheckFlags | inc/cutils/pthread/event_flag.h:61-84 | One check, flag by flag: when it succeeds, what it reports and what it clears |
| EventFlags.EventFlag.Wait | inc/cutils/pthread/event_flag.h:86-128 | The wait loop is the specified run of checks and pauses |
| RingProtocol.StepKeepsInv | src/ring_buffer.c:65-206 | Every load, byte copied and publication on either side keeps the invariant |
| RingProtocol.ReaderObtainsPrefix | src/ring_buffer.c:103-206 | In every interleaving the reader obtains exactly a prefix of the bytes the writer's calls accepted |
| RingProtocol.WriteLookIs | src/ring_buffer.c:103-112 | A write ends at once iff the ring is full or there is nothing to write |
| RingProtocol.WriteAppendsFirstBytes | src/ring_buffer.c:103-138 | With the reader's steps anywhere between, a write appends the first bytes it was given, as many as there is room for at its second look, which is no less than at its first |
| RingProtocol.WriterCanFinish | src/ring_buffer.c:103-138 | A write that has begun can be finished by its own steps |
| RingProtocol.PeekFinds | src/ring_buffer.c:140-200 | With the writer's steps anywhere between, a peek finds nothing iff nothing was unread when it began, and otherwise the oldest bytes, as many as asked for and unread then |
| RingProtocol.PeekAndClearObtains | src/ring_buffer.c:140-206 | Clearing them, the reader obtains exactly these |
| RingProtocol.ReaderCanFinish | src/ring_buffer.c:140-206 | The reader's own steps finish what it has begun |
| RingProtocol.StaleOffsetsAreSafe | src/ring_buffer.c:65-86 | Stale offsets only under-report room and bytes |
| RingProtocol.UnreadBytesAreUntouched | src/ring_buffer.c:103-138 | No step changes an unread byte |
| RingBuffers.RingBuffer.WriteData | src/ring_buffer.c:103-138 | Appends the first min(size, free) bytes, at any offset |
| RingBuffers.RingBuffer.GetData | src/ring_buffer.c:197-200 | One or two regions that denote the first min(length, available) bytes, at any offset |
| RingBuffers.RingBuffer.GetDataAtRange | src/ring_buffer.c:140-195 | When something is found, what is handed out, whether the three assertions hold, and how far the read offset moves |
| RingBuffers.RingBuffer.ClearData | src/ring_buffer.c:202-206 | Drops the first min(length, available) bytes |
| RingBuffers.RingBuffer.CopyOut | inc/cutils/ring_buffer.h:87-98 | Copies out what the regions denote and nothing more |
| RingBuffers.OnlyTheLastCanFail | src/ring_buffer.c:153-179 | The lengths add up and the read offset moves to the location asked for: all assertions hold iff the last one does |
| RingBuffers.RegionsDenoteAround | src/ring_buffer.c:156-175 | One region or two denote the bytes from an offset on, round the end |
| RingBuffers.RangeInsideIsExact | src/ring_buffer.c:140-195 | A range inside the unread bytes, away from the 32-bit wrap, is handed out exactly and the assertions hold |
| RingBuffers.FindsUnlessLocationWraps | inc/cutils/ring_buffer.h:56-58 | An unread byte is found iff its position does not carry the 32-bit read offset past 2^32 |
| RingBuffers.AssertionsHoldIffInside | src/ring_buffer.c:155-179 | Away from the wrap, what is handed out stays inside the unread bytes iff the assertions hold |
| RingBuffers.GetDataAssertions | src/ring_buffer.c:179 | For get_data, exactly when the last assertion fails |
| RingBuffers.GetDataAssertionCanFail | src/ring_buffer.c:179 | A case in which it does |
| Accumulators.Accumulator.Insert | inc/cutils/accumulator.h:160-184 | Succeeds iff shorter than the buffer, and leaves the last total - 1 bytes of old contents and new bytes |
| Accumulators.Accumulator.Peek | inc/cutils/accumulator.h:186-201 | Copies the prefix asked for, if there is one, whether it wraps or not |
| Accumulators.Accumulator.Extract | inc/cutils/accumulator.h:203-211 | Removes exactly the prefix that peeking shows |
| Accumulators.Accumulator.Advance | inc/cutils/accumulator.h:213-221 | Drops size bytes if there are as many; asked for more, it puts the free places from there on in front of the window, which grows only then |
| Accumulators.Accumulator.PeekAt | inc/cutils/accumulator.h:223-243 | Copies the bytes from an iterator on, up to the end of the contents |
| Accumulators.Accumulator.PeekedAtIs | inc/cutils/accumulator.h:223-243 | From the byte k of the window that is the window from k on, as far as asked for |
| Accumulators.Accumulator.BytesLeft | inc/cutils/accumulator.h:101-111 | Bytes contained and bytes left add up to total - 1 in every state |
| Accumulators.AdvanceIff | inc/cutils/accumulator.h:125-136 | From a valid iterator, advancing with its 32-bit sum succeeds iff bytes remain behind those skipped |
| Accumulators.AdvanceIsNextTimes | inc/cutils/accumulator.h:125-136 | It then equals as many single steps |
| Accumulators.IterationCollects | inc/cutils/accumulator.h:63-83 | Peeking one byte and going to the next collects exactly the contents, then stops |
| Accumulators.SumsFitIffSmall | inc/cutils/accumulator.h:168 | The buffer sizes for which 32-bit sums of positions do not wrap |
| LogBuffers.EscapeAfterIff | src/log_buffer.c:29-50 | A text ends inside an escape sequence iff the last escape character, or a sequence begun before, has no letter behind it |
| LogBuffers.VisibleKeepsOrder | src/log_buffer.c:29-50 | What is stored are, in order, the characters outside escape sequences except escape, return and NUL |
| LogBuffers.PlainIsVisible | src/log_buffer.c:29-50 | A text without these is stored as it is |
| LogBuffers.SequenceVanishes | src/log_buffer.c:29-50 | An escape sequence is not stored, up to and with its first letter |
| LogBuffers.VisibleAppend | src/log_buffer.c:29-50 | Filtering two texts in turn is filtering them at once |
| LogBuffers.SplitDoesNotMatter | src/log_buffer.c:65-79 | Any pushes leave what one push of the joined text would |
| LogBuffers.ContentIsTailOfText | src/log_buffer.c:65-79 | From an empty buffer: the last size - 1 visible characters of everything pushed |
| LogBuffers.LogBuffer.Push | src/log_buffer.c:65-79 | Accepted iff shorter than the buffer; then exactly the specified push |
| LogBuffers.LogBuffer.CharPush | src/log_buffer.c:101-110 | Appends a character, overwriting the oldest when full; NUL is not stored |
| LogBuffers.LogBuffer.CharPop | src/log_buffer.c:81-90 | Yields the contents in order |
| LogBuffers.LogBuffer.CurrentSize | src/log_buffer.c:118-135 | Two chunks of the memory that are the contents in place |
| LogBuffers.LogBuffer.Init | src/log_buffer.c:52-63 | Empties the buffer and keeps the escape state |
| KLists.Prepend | inc/cutils/klist.h:93-103 | Puts an element in front of a list whose first prev is unknown |
| KLists.Pop | inc/cutils/klist.h:104-113 | Takes the first element off and clears its links only |
| KLists.RemoveElem | inc/cutils/klist.h:133-145 | Unlinks an element; the first only if it has no prev |
| KQueues.KQueue.Insert | inc/cutils/kqueue.h:84-92 | Appends; head and tail are null together; the count is the length |
| KQueues.KQueue.Dequeue | inc/cutils/kqueue.h:103-116 | Takes the oldest element, with null links |
| KQueues.KQueue.DropAll | inc/cutils/kqueue.h:144-152 | Hands every element to the callback, in order, and empties the queue |
| KQueues.KQueue.DropAllThrough | inc/cutils/kqueue.h:188-202 | Drops in order up to and with the element, or everything |
| KQueues.BehindIs | inc/cutils/kqueue.h:188-202 | What is left is exactly what was behind the element, or nothing if it was not there |
| KQueues.KQueue.FindFirst | inc/cutils/kqueue.h:162-180 | The first element that satisfies the predicate, or none if none does |
| FreeLists.FreeList.constructor | inc/cutils/free_list.h:65-81 | Threads the whole store, last element first |
| FreeLists.FreeList.Get | inc/cutils/free_list.h:83-90 | Gives out the item put back last, until none is left |
| FreeLists.FreeList.Put | inc/cutils/free_list.h:92-100 | Refused iff as many are counted as at first |
| FreeLists.FreeList.ItemsOutCanBePut | inc/cutils/free_list.h:92-100 | While only items of the store and null go in, an item that is out is refused iff null was put as often as there are items out |
| FreeLists.NullCanTakeThePlace | inc/cutils/free_list.h:92-100 | A list that refuses its only item for that reason |
| Notifiers.Notifier.Allocate | src/notifier.c:76-86 | Takes the oldest free block and zeroes it |
| Notifiers.Notifier.Register | src/notifier.c:88-97 | Puts an idle block in front of the list of its category, all other lists as they were |
| Notifiers.Notifier.Deregister | src/notifier.c:99-112 | Takes a block out of its list, head or not, or nothing if it was in none, and frees it; writes to no block outside the list |
| Notifiers.Notifier.Post | src/notifier.c:131-140 | Visits exactly the registered blocks of the category, newest first, each once |
| Notifiers.LeavingKeepsPlaces | src/notifier.c:99-112 | Every block stays free, idle or registered, and only one of these |
| Notifiers.Notifier.ListsAreDisjoint | src/notifier.c:88-97 | No block is in two lists, nor free or idle while in one |
| Bsts.TraversalIsStableSort | src/bst.c:28-50 | The traversal after any insertions is sorted, equal elements in order of insertion |
| Bsts.SearchFindsEarliest | src/bst.c:52-65 | Searching finds the equal element inserted first, and null iff there is none |
| Bsts.InsertedIsOrdered | src/bst.c:36-49 | Inserting keeps the order of the tree |
| Bsts.LinkingInserts | src/bst.c:45-49 | Setting one link of the node the loop ends at is the insertion into the tree |
| Bsts.Bst.Insert | src/bst.c:28-50 | The loop terminates and the links then form the tree of everything inserted |
| Bsts.Bst.Search | src/bst.c:52-65 | The recursion over the links terminates with that result |
| Bsts.Bst.Traverse | src/bst.c:67-80 | The recursion over the links visits the stable sort |
| StateMachines.ReactGoesToAnswer | src/state_machine.c:130-161 | An event takes a running machine to the state its callback asked for, with no request left |
| StateMachines.EventIsHandled | src/state_machine.c:130-161 | An event is asked about once of the current state and handled right then iff valid; the state asked for, if another, is entered after the exit, and nothing else is called |
| StateMachines.EventsLatch | src/state_machine.c:130-142 | Of several events before a transition each is asked about, those valid are handled, the last of these says where to go, and a request stays |
| StateMachines.TransitionIsMove | src/state_machine.c:144-161 | A request is taken up once, by leaving the current state and entering the one asked for last if it is another |
| StateMachines.StartIsEntry | src/state_machine.c:92-104 | Starting enters the first state with the start id |
| StateMachines.StopIsExit | src/state_machine.c:106-116 | Stopping leaves the current state |
| StateMachines.ReactFollows | src/state_machine.c:130-161 | Handling and transition keep the calls in the grammar |
| StateMachines.GrammarBrackets | src/state_machine.c:83-161 | A state is left, asked and told only as the one entered last |
| StateMachines.GrammarAlternates | src/state_machine.c:144-161 | Between two entries lies an exit |
| StateMachines.GrammarInits | src/state_machine.c:83-90 | f_init runs right before the first entry of its state, and always then |
| StateMachines.GrammarInitsOnce | src/state_machine.c:83-90 | f_init of a state runs once |
| StateMachines.EventsAfterStop | src/state_machine.c:106-116 | Events are discarded iff the machine was never started; after a stop the next one follows a null state |
| StateMachineRecords.StateMachine.GetState | src/state_machine.c:69-81 | Finds the first registered state with the id |
| StateMachineRecords.StateMachine.RegisterState | src/state_machine.c:118-128 | Appends a state, registered before or not; a twenty-first is left out |
| StateMachineRecords.StateMachine.Start | src/state_machine.c:92-104 | Enters the start state as specified |
| StateMachineRecords.StateMachine.Stop | src/state_machine.c:106-116 | Leaves the current state and stays marked as started |
| StateMachineRecords.StateMachine.HandleEvent | src/state_machine.c:130-142 | Asks, handles and latches the request as specified |
| StateMachineRecords.StateMachine.Transition | src/state_machine.c:144-161 | Takes up the request as specified |
| EventLoops.RunFollows | src/state_event_loop.c:132-179 | In every run every machine's calls follow the grammar, it is in the state they entered, and no request is left between events |
| EventLoops.RunTellsEachOnce | src/state_event_loop.c:160-179 | In every run each event issued is asked about once of each machine running when it came, and handled by it once iff valid, in order |
| EventLoops.RunPasses | src/state_event_loop.c:174-178 | In every run each event gets one notification pass and then one release, in order of the events |
| EventLoops.EventInOrder | src/state_event_loop.c:170-178 | The calls of machine i for an event, its handling and its transition, come before those of machine i + 1, and all before it is passed on |
| EventLoops.StepGoesToAnswer | src/state_event_loop.c:132-179 | Every command takes every machine where its client's answers say |
| EventLoopRecords.EventLoop.Exec | src/state_event_loop.c:160-179 | The loop over the machine records does the specified event |
| EventLoopRecords.EventLoop.Start | src/state_event_loop.c:132-138 | The loop starts every machine as specified |
| EventLoopRecords.EventLoop.Stop | src/state_event_loop.c:140-147 | The loop stops every machine as specified |

## Left out

- Thread creation, priorities, stacks, clocks and timespec arithmetic; a timed wait is one that may time out.
- The FreeRTOS port and the c11 queue, and `endian.c`, logging, string prefixes, store macros, alignment and sanity words.
- Fairness: no wait is shown to end, only that someone can go on who will end it. The four-second waits of asyncio are
  modelled as waits that succeed or go on.
- Weak memory orders: atomic operations and the offset accesses of the ring buffer are sequentially consistent.
- In asyncio: releasing a token or an rx buffer by the client, `asyncio_destroy_instance`, the error flag, and posts that
  find the dispatch pool used up, which stop the program in an assertion. Clients use tokens only in the cycle they
  obtained them in. The reading and writing functions do not touch the stream.
- Counters of 64 bits and `head`/`tail` of the queue do not wrap; neither does the 32-bit item count of a queue.
- In the pool: block contents, and the destructor's private data. Destroying a pool that is in use is not modelled.
- In the dispatch queue: task, pool, queue and signal are released in one step.
- The callbacks given to lists, notifier, tree, state machines and event loop do not change the structure that calls them.
- Accumulators.Accumulator.constructor: buffers above 2^31 bytes are excluded, because 32-bit sums of positions wrap there.
- Notifiers.Notifier.Deregister: the block goes back to the pool in the same locked section, so the model's queue of free
  blocks is a sequence and not the concurrent queue.
- RingBuffers.RingBuffer.WriteData: the observer callbacks of the ring buffer are not called.
- Flag words are sets of bits, without the width of 32. Taking the mutex of an event flag always succeeds; in the source
  a timed lock can fail, and the call then returns false.
- The line notifications of the thread-safe log buffer, whose line count underflows for size 0.
- In the event loop: creation and the registration calls that only pass on to the notifier.
