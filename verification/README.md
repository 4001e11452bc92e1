# ssbench verification

ssbench moves framed messages through a process: input threads cut byte streams into messages and place
each body in a pre-allocated entry of a worker's queue; workers take full entries round robin, call a
function, and hand framed results to an output thread; entries are recycled for ever through two lock-free
linked stacks per queue, and a counting semaphore ties the producers of a queue set to its one consumer.

The project models this in layers. Each layer is a state machine or an imperative method, and every main
result is stated for all inputs, all interleavings or all runs.

| file | layer |
|---|---|
| `CasQueue`, `CasRefinement`, `CasRuns`, `CasPremise` | one queue, one shared-memory access per step: refinement to two stacks, ownership, edge reports, lock-freedom, and when exactly the queue is sound |
| `QueueOps` | the retry loops of queue.h, with other threads running between any two accesses |
| `QueueLayout`, `WorkerLayout` | `queue_init` over raw bytes, `worker_new`'s array of queues |
| `Channel`, `ChannelRuns`, `RoundRobin` | one consumer, its queues and its semaphore, with list operations as single steps: tokens, the scan, conservation, exactly once |
| `CasChannel`, `CasChannelRuns`, `CasProgress` | the same with every list operation taken apart into its accesses: every interleaving is a run of `Channel`, and no thread is ever stuck |
| `Common`, `Bytes`, `Framing`, `Net` | little-endian headers, the one-shot frame parser, the read and write loops |
| `Input`, `InputRuns`, `UnsetPointer`, `Overlay`, `SplitBodies` | `input_serveConnection` over arrays, and what a connection does over any sequence of calls, with the entry pointer that one answer leaves unset |
| `Delivery` | any number of connections and workers over shared queues: what reaches a worker's function |
| `Output`, `Pipeline`, `OutputBytes`, `OutputRuns`, `FullOutput` | the worker's frame writer, the output thread, workers feeding one output, the bytes of its entries and of the wire in every run, and what happens when the output has no entry |
| `CasPipeline`, `CasWire`, `EndToEnd`, `Progress`, `Streams`, `StreamResults` | workers, connections and output interleaved access by access and store by store, from the streams connections send to the stream a receiver parses back, without deadlock |

## Where the code departs from its evident intent

* **Two takers of one list.** The pop loads `next` and then swaps only the head (queue.h:78-86), so two
  threads popping `empty` can corrupt it. The refinement carries the premise `OneTaker`, and
  `CasPremise.SoundIffOneTaker` shows that the queue is sound in every run exactly when it has one entry or
  at most one feeder, also when threads keep to their roles and never hold two entries. The script `worker`
  (worker:17-23) points every worker at output 1, so an output's `empty` has as many feeders as there are workers;
  `CasPipeline.OutputPremise` shows that the premise then fails unless the output has one entry. `Channel`,
  `Pipeline`, `OutputRuns` and `FullOutput` have atomic list operations, so what they say is said of the code under the premise
  only: one worker per output or a one-entry output, and one input thread per worker queue or a one-entry queue.
  `CasChannel`, `CasPipeline`, `CasWire`, `EndToEnd`, `Streams` and the modules about them prove that it does hold of the code then, access by access.
* **Last node of `queue_init`.** queue.c:39 indexes `entries` by the bare struct. `QueueLayout` models both
  addresses: the intended one always threads the list; the written one does exactly when
  maxentrysize * (qlen - 1) <= 8, and also leaves every length zero exactly when qlen is 1 or maxentrysize is 0.
* **The scan's index.** rr_queue_scan.c:9-25 never stores `*idx`, which worker.c:288-289 uses, so `qidx` keeps whatever
  16-bit value it started with. `Channel` models both: with the popped index reported entries are conserved in every
  run; with an untouched index, in range or not, they are exactly when the worker has a single queue and the index
  happens to be 0 (`ChannelRuns.StaleIndexConservesIff`).
  `RoundRobin`, and `Pipeline` and `CasChannel` with the layers built on them, have the index stored.
* **Bad queue index.** input.c:217-232 has no arm for `Q_BADQIDX`, so the entry pointer keeps whatever it held. `Input` takes
  that value as a parameter: if it is null the message is drained like other refused ones, and otherwise the plan of the
  call is not ok, and the run theorems follow the run no further. `UnsetPointer` follows it as written: the body is read through the
  pointer, and the process dies in the assertion of worker.c:136 when the body is complete.
  `UnsetPointer.BadHeaderHarmsIff` shows that one message does this exactly when its header names a known worker and an index that
  is none of its queues and the pointer is not null; `UnsetPointer.HarmNeedsBadHeader` that every run is the modelled one
  up to such a header; and `UnsetPointer.HarmlessIff` that all runs are harmless exactly when the pointer is null or there is no worker.
* **Bodies that arrive in pieces.** input.c:253-254 always reads at the start of the entry's data. `Overlay`
  shows that a body is delivered intact, whatever its bytes, exactly when at most one of its reads brought
  data, and `SplitBodies.AlwaysIntactIff` says so of whole runs of connections. Connections in fact block
  (net.c:48-57 sets descriptor flags, not `O_NONBLOCK`), and
  `InputRuns.LiveConnectionDelivers` shows that every body is then intact, provided that the rest of a message that
  has begun does arrive.
* **Length narrowing.** `int len` (input.c:238) holds a `uint32_t`; a call that meets a datalen above 2^31 - 9 is an abort here.
* **Drained bodies on the stack.** input.c:241 reads a refused body into a variable-length array. `Input` takes the room on the stack as
  a parameter; a call whose refused body is longer counts as an abort.
* **A full output.** worker.c:297-299 prints and goes on without an entry: the function is called with the pointers of the
  worker's previous trip and the space of a whole entry, its result and length are stored there, and the process dies at
  worker.c:328. In `Pipeline` and `CasPipeline` such a worker has *fallen*: it does nothing more to the lists. In `OutputRuns` and
  `CasWire` it may store through the old pointers (arbitrary at first), into an entry that may be published; the memory has then *strayed*.
  A worker finds no entry exactly when all entries are published, reserved or with the output thread
  (`Pipeline.FullIff`, and `CasPipeline.OutputFullIff` between any two accesses). For every output length a run leads there
  (`FullOutput.FullReachable`); that no run does holds exactly when no worker has a connection (`FullOutput.NeverFullIff`). The stores leave a
  published frame alone exactly when the result is that frame's body (`FullOutput.ScribbleSparesIff`), and published
  frames stay in their entries in all runs exactly when all workers with connections give one and the same result for every message and either
  space (`FullOutput.FramesHoldIff`). What is said of bytes carries the premise *calm*: the memory has not strayed, or all results are the same.
* **Counts that wrap.** worker_new adds the queue counts in 16 bits (worker.c:196-219). `WorkerLayout.SucceedsIff` gives the
  exact counts for which it fills its array and passes its last assertion.
* **Failed sends.** output.c:137 ignores the result of `net_writen`; `Output.WireReadsBackIff` shows that the receiver
  parses back what was sent exactly when no send failed.

## Model

| member | source | states |
|---|---|---|
| CasRefinement.StepRefines | queue.h:66-148 | one load, store or compare-and-swap of any thread keeps the ownership and list invariant and is one atomic push, pop, emptiness report or nothing at all on two abstract stacks |
| CasRuns.RunRefines | queue.h:66-148 | any interleaving of any length is matched event by event by the two stacks |
| CasRuns.EntriesStayAccounted | queue.h:77-89 | in every run both chains are duplicate-free and null-terminated and, with the entries threads hold, partition all entries |
| CasRuns.FreeEntriesAreClean | queue.h:134-148 | in every run every entry on the free list has length 0 |
| CasRuns.LengthTravels | input.c:263-264 | the length a thread records for an entry is what any other finds there, over any puts, gets and interleavings, until it is freed or set again |
| CasRuns.SpecEdges | queue.h:111-131 | the edge reports of a list add up to the change of its being non-empty, over any trace of the stacks |
| CasRuns.EdgeReportsAreExact | queue.h:111-112 | at every point of every run, `true` puts minus `true` gets on `full` is 1 if the list is non-null and 0 if it is null |
| CasRuns.NeverStuck | queue.h:78-88 | a thread inside an operation never dereferences null or a stray address: its next access is always possible |
| CasRuns.StaleStep | queue.h:84-86 | a failed swap uses up one thread with a stale head, and only a successful one can make heads stale, at most T - 1 |
| CasRuns.FailedCasBound | queue.h:127-129 | in every run with T threads, failed swaps on a head are at most (T - 1) times the successful ones, for any number of takers |
| CasPremise.SoloTake | queue.h:77-90 | an undisturbed get pops the head, nulls its `next` and leaves it with the caller |
| CasPremise.SoloPut | queue.h:134-148 | an undisturbed put makes the entry the head, linked to the old head, and lets go of it |
| CasPremise.TwoFeedersCorrupt | queue.h:78-86 | with two feeders and two entries a run in which threads keep to their roles, and start a get only with empty hands, puts an entry on the free list that a feeder still holds |
| CasPremise.SoundIffOneTaker | queue.h:66-91 | the queue is sound in every run, and equally in every run that keeps the roles, if and only if it has one entry or at most one feeder |
| QueueOps.SharedQueue.Others | queue.h:77-86 | whatever other threads do between two accesses keeps the invariant and leaves the caller where it was |
| QueueOps.SharedQueue.Take | queue.h:93-113 | the retry loop ends after at most as many retries as there were interferences, with exactly one abstract pop of the entry returned and the right edge, or one report that the list was empty at the load and no edge |
| QueueOps.SharedQueue.PutBack | queue.h:119-148 | the retry loop ends with exactly one abstract push of the caller's entry, and reports whether it found the list empty |
| QueueOps.SharedQueue.GetEmptyEntry | queue.h:66-91 | a length above maxentrysize is refused without touching the list; without the check the length reported is maxentrysize; otherwise the entry popped or no entry |
| QueueLayout.OffIsProduct | queue.h:54-62 | entry i starts i entry sizes into the block |
| QueueLayout.EntriesDisjoint | queue.h:54-62 | entries occupy pairwise disjoint ranges inside the allocated block |
| QueueLayout.Queue.Init | queue.c:14-48 | the bytes of the block after `queue_init`, for either address of the last node, and the two heads |
| QueueLayout.IntendedInitThreads | queue.c:20-44 | with the intended address, `empty` runs through entries 0..qlen-1 in order to null and every length is 0, as the step machine starts |
| QueueLayout.WrittenInitLinksIff | queue.c:38-41 | as written, the free list is right for every initial memory if and only if maxentrysize * (qlen - 1) <= 8 |
| QueueLayout.WrittenInitCleanIff | queue.c:38-41 | as written, list and lengths are right for every initial memory if and only if qlen is 1 or maxentrysize is 0 |
| WorkerLayout.IntervalsPartition | worker.c:206-219 | every queue index lies in the prefix-sum interval of exactly one descriptor |
| WorkerLayout.Count | worker.c:196-199 | the first loop computes the sum of all counts in 16 bits, for any counts |
| WorkerLayout.New | worker.c:196-219 | for any counts: it stays inside its array and passes its last assertion exactly when the slots to fill are as many as the 16-bit sum, and then slot k is a queue with the maxentrysize and the qlen of the descriptor whose interval contains k |
| WorkerLayout.SucceedsIff | worker.c:196-219 | that is the case if and only if the positive counts sum to at most 32767 and the negative ones to a multiple of 65536, so in particular for non-negative counts that sum to at most 32767 |
| Channel.StepTokens | worker.c:139-147 | every step keeps: published entries = semaphore + producers between push and signal + the token in use |
| Channel.StepOnce | worker.c:288-334 | every step keeps: each accepted message was served, is on a full list or is in the consumer's hand, once |
| Channel.StepPlaces | worker.c:113-148 | every step leaves every entry in as many places as it was, if served entries go home |
| ChannelRuns.TokensAccounted | worker.c:139-291 | in every run the token equation holds |
| ChannelRuns.NeverLeftBlocked | worker.c:278-291 | a waiting worker with a published message can pass its wait, or a producer still owes the signal |
| ChannelRuns.OutputAssertHolds | output.c:125-138 | with list operations atomic, the output's pop after the wait never finds its list empty, with any number of producers |
| ChannelRuns.ScanFinds | rr_queue_scan.c:17-22 | with a token held the scan pops before n misses, whatever producers push between probes |
| ChannelRuns.BoundedBypass | rr_queue_scan.c:13-24 | until a non-empty queue j is served, at most (j - cursor) mod n entries are taken from other queues, over any calls |
| ChannelRuns.ExactlyOnce | worker.c:278-334 | in every run each copy of each message was served, is published, or is in the consumer's hand |
| ChannelRuns.EntriesConserved | worker.c:127-148 | with the popped index reported, in every run each entry is in exactly one place and no others appear |
| ChannelRuns.QueueTally | input.c:140-156 | qlen = empty + full + reserved + with the consumer + lost, where lost counts the connections closed in the middle of a message |
| ChannelRuns.StaleIndexMisplaces | worker.c:288-289 | with an untouched index, in range or not, one message through another queue takes an entry out of that queue |
| ChannelRuns.StaleIndexConservesIff | rr_queue_scan.c:9-25 | as written, entries are conserved in every run if and only if the worker has one queue and the untouched index is 0 |
| RoundRobin.Worker.GetFullEntry | queue.h:93-113 | one probe: the newest full entry and whether it was the last, or null and nothing changed |
| RoundRobin.PushedAre | queue.h:119-131 | after any pushes a list is the items of those addressed to it, last first, before what it held |
| RoundRobin.Worker.ScanFull | rr_queue_scan.c:9-25 | the queue returned is the first in cyclic order that was non-empty at the call or is pushed on before the loop comes to it; the entry is the last one pushed on it by then, or else its newest at the call; the loop needs no more probes than lead to any queue non-empty at the call, and keeps its 16-bit cursor in range |
| Framing.HeaderBytes | msghdr:3-20 | byte by byte: two 16-bit two's complement ids and a 32-bit length, all little-endian |
| Framing.DecodeEncode | msg.h:4-11 | decoding an encoded header gives the header back |
| Framing.EncodeDecode | msghdr:3-20 | any 8 bytes are the little-endian 2+2+4 encoding of the header read from them |
| Framing.ParseAppend | input.c:197-280 | parsing may stop anywhere and resume with what was left over |
| Framing.RestIncomplete | input.c:204-256 | what is left over never holds a complete frame |
| Framing.FramesTile | input.c:233-256 | frames of exactly 8 + datalen bytes each, and the rest, make up the stream |
| Framing.WireParses | msg.h:4-11 | the concatenation of any frames parses to exactly those frames |
| Net.ReadsCount | net.c:277-293 | a read call has as many bytes as the recvs it used offered, it asked for, and were there |
| Net.ReadsStop | net.c:277-287 | it goes on over interrupts and short reads, aborts exactly on an error, and stops short only at end of stream, EAGAIN, or when nothing more was there |
| Net.BlockingReadIsWhole | net.c:267-294 | on a blocking descriptor one call reads all it asks for, however recv chops it up |
| Net.Socket.Readn | net.c:267-294 | the buffer holds exactly the next bytes of the stream, as many as the scripted recvs give, and nothing else is touched |
| Net.WritesExplained | net.c:185-202 | a write call goes on over interrupts and short writes, fails exactly when a send failed or wrote nothing, and has then written what the sends before it accepted |
| Net.Sink.Writen | net.c:176-203 | all n bytes in order and n, or a strict prefix of them and -1 |
| Input.Workers.GetQueueEntry | input.c:158-178 | each of the five answers exactly when it is due, and the next free entry, big enough for the body, taken off its list only on success |
| Input.Workers.PutBackQueueEntry | worker.c:127-148 | the entry's length, its push on the addressed full list and one signal, nothing else |
| Input.Connection.Reset | input.c:72-81 | an empty message buffer |
| Input.Connection.ServeHeader | input.c:201-233 | header bytes, and the lookup exactly when they complete the header; and whether it leaves the entry pointer unset and not null |
| Input.Connection.ServeBody | input.c:235-280 | body bytes stored at the start of the entry or thrown away, and release, count and reset exactly when the body is complete |
| Input.Connection.Serve | input.c:181-281 | one call, over arrays and shared lists, aborts exactly when a recv fails, the header it completes has a length above 2^31 - 9 or a bad index that meets an unset pointer, or a body to be thrown away does not fit the stack; it takes the planned bytes, and otherwise leaves buffer, lists and entries as the pure step the run theorems are about |
| InputRuns.NextKeeps | input.c:181-281 | a call keeps the session in step with the one-shot parser |
| InputRuns.FollowsOneShot | input.c:197-280 | in every run in which the process survives and no bad queue index meets an unset pointer: for every cut of the stream into calls and every admission outcome, buffered bytes, boundaries, lengths and msgcnt are the one-shot parser's, and each header is looked up exactly once, in order |
| InputRuns.RunEndsIff | input.c:197-280 | the calls of a connection, however its headers and bodies are cut, end the process or stray if and only if one of them meets one of those four conditions |
| InputRuns.ChunksDoNotMatter | input.c:197-280 | two connections that have taken the same bytes stand at the same point and have looked up the same headers |
| InputRuns.OneReadDelivers | input.c:253-264 | a message whose body came in one read is released with exactly that body |
| InputRuns.LiveConnectionDelivers | net.c:48-57 | when recv blocks until a message's bytes arrive, and they do, headers meet no unset pointer and refused bodies fit the stack, nothing aborts, a call takes a whole message, and every admitted one is released with exactly its body |
| UnsetPointer.BadHeaderHarmsIff | input.c:217-232 | one message stores through the unset pointer, or dies in the release, if and only if its header names a known worker and an index that is none of its queues, and the pointer is not null |
| UnsetPointer.StraysInSync | input.c:217-254 | the first call that goes on with the unset pointer does so at a frame boundary of the bytes taken, where the next header names a bad index |
| UnsetPointer.HarmNeedsBadHeader | input.c:217-280 | every run that does harm is the one-shot session up to a call that completes a header with a bad index |
| UnsetPointer.HarmlessIff | worker.c:120-136 | for every value of the unset pointer, all runs are harmless if and only if it is null or there is no worker |
| Overlay.IntactIffOneRead | input.c:253-254 | storing every read at offset 0 keeps every body if and only if at most one of the reads brought data |
| SplitBodies.CutIsRead | input.c:235-280 | for any cut of a body there are calls that read it so and release it |
| SplitBodies.AlwaysIntactIff | input.c:235-280 | over all runs of all connections, messages that come in reads of given sizes are released intact if and only if at most one of the reads brought data |
| Delivery.ReadEffect | input.c:181-281 | a call that survives and meets no unset pointer reserves at most the next free entry, overwrites only its own message's entry, and releases at most that |
| Delivery.StepKeeps | input.c:197-280 | every step of connections and workers keeps ownership, contents and fates in agreement |
| Delivery.BookkeepingNeverBlocks | worker.c:278-334 | a step is possible exactly when it should be: the call whose plan is ok, the signalled pop, the service of what is held |
| Delivery.ServedAreMessages | worker.c:319-324 | a function is only ever called on a complete message of its queue, with its length, with its bytes if one read brought them, and never twice on the same |
| Delivery.CompletedAreAccounted | input.c:260-280 | with every header with a bad index met by a null pointer: an admitted message waits in exactly one entry of the addressed queue, length recorded, or was served once, never both; a refused one does neither |
| Delivery.EntriesConserved | input.c:230-271 | with any connections and workers, every entry is in exactly one list position, connection or worker |
| Delivery.LengthsAreRight | input.c:263-264 | free entries have length 0 and full ones their header's datalen, at most maxentrysize |
| Delivery.SignalsCountEntries | worker.c:139-147 | with any connections, a worker's semaphore counts exactly the full entries of its queues, and an idle signalled worker has one to take |
| Output.Worker.Run | worker.c:300-333 | the output entry holds the ids, the length cut to 32 bits and then exactly what the function gives for the message and the space left, or nothing without a function, within its capacity; a result a receiver can hold is exactly its frame |
| Output.Sender.Drain | output.c:125-139 | every full entry is sent once in the order popped and put on the free list, the last one in front, and what reaches the wire is what the sends let through |
| Output.WireReadsBackIff | output.c:137 | the receiver parses back exactly the frames sent if and only if every send succeeded |
| Output.GoodSendsSendAll | net.c:185-202 | if no send fails or writes nothing, everything is sent, however short and interrupted the sends |
| Output.StreamRoundTrip | worker.c:303-332 | a connection that took the whole stream has each frame's worker id, queue index and length, in order, and its body, intact where one read brought it |
| Pipeline.MoveResults | worker.c:296-334 | every step keeps: results the output accepted = results of served messages - those computed and not pushed yet |
| Pipeline.ResultsAccounted | worker.c:319-334 | with list operations atomic (for the code: one worker per output or a one-entry output, and a worker that finds the output full stops there), in every run each result was sent, is on the output's list or in its hands, once |
| Pipeline.ResultsComeFromMessages | worker.c:318-332 | whatever the output has sent, listed or in hand is some worker's result for a message which that worker accepted |
| Pipeline.DrainedPipeline | output.h:72-86 | with list operations atomic (for the code: one worker per output or a one-entry output, and a worker that finds the output full stops there), when every thread is idle, so none has found the output full, the output has sent the result of every message any worker accepted, exactly once, and nothing else |
| Pipeline.OutputFindsEntry | output.c:134-135 | with list operations atomic (for the code: one worker per output or a one-entry output, and a worker that finds the output full stops there), the output's assertion after the wait holds |
| Pipeline.FullIff | queue.h:78-82 | in every run a worker finds no output entry if and only if published entries, reserved ones and the one with the output thread are as many as the output has, and they are never more |
| OutputRuns.StepKeeps | worker.c:296-334 | whatever the channels allow can make its stores inside its entry, and keeps what each output entry holds at its stage: nothing, header, result, whole frame, or length 0; a worker without an entry keeps it if all results are the same |
| OutputRuns.EntriesCarryFrames | worker.c:303-328 | in every calm run every published output entry, and the one being sent, has length 8 + flen within its capacity and holds the frame of the worker's result (list operations atomic) |
| OutputRuns.PublishedAreResults | worker.c:303-328 | in every calm run a published entry is the ids of a worker, the length, and what its function gave for a message it accepted (list operations atomic) |
| OutputRuns.WireIsSent | output.c:125-139 | in every calm run the wire is what the sends let through of the frames sent so far, in order (list operations atomic) |
| OutputRuns.StreamCarriesEveryResult | output.c:125-139 | in every calm run the wire parses back to what was sent if and only if no send failed, and when all is idle it is exactly the results of all accepted messages, with multiplicity (list operations atomic; for the code: one worker per output or a one-entry output) |
| FullOutput.FullReachable | worker.c:296-299 | for every output length, any two workers with connections and any two messages: a run publishes the frame of the one in all entries, and the other worker then finds none, its old pointers into one of them |
| FullOutput.NeverFullIff | worker.c:296-299 | from whatever start, no run leaves a worker without an entry if and only if no worker has a connection |
| FullOutput.ScribbleSparesIff | worker.c:318-328 | what a worker without an entry stores leaves the published frame in its old entry in place if and only if its result is that frame's body |
| FullOutput.FramesHoldIff | worker.c:296-328 | from whatever start, published frames stay in their entries in every run if and only if all workers with connections give one and the same result, for every message, with the header's space and without |
| CasChannel.StepMatches | queue.h:77-148 | one access of any thread, with semaphore, entry contents and connections around it, is one step of `Channel` or none, under one taker per list |
| CasChannel.RunsAreChannelRuns | worker.c:113-148 | under one taker per list every interleaving of accesses is a `Channel` run with the same producers, consumer, semaphore and messages, whose lists are the linked chains |
| CasChannelRuns.TokensAtEveryAccess | worker.c:139-147 | between any two accesses the entries on the full chains = semaphore + signals owed + the token in use, under one taker per list |
| CasChannelRuns.HeadIsThere | output.c:125-138 | after the wait the head of a single full list is non-null at every access until the pop, under one taker per list |
| CasChannelRuns.ExactlyOnceAtEveryAccess | worker.c:278-334 | between any two accesses each copy of each message was served, is in an entry of a full chain, or is in the consumer's hand, under one taker per list |
| CasChannelRuns.EntriesAtEveryAccess | input.c:140-156 | between any two accesses each entry is on one chain, with a producer, with the consumer, or lost with a connection, once, under one taker per list |
| CasProgress.OwnersKept | queue.h:66-148 | every access keeps: the thread of a producer, or the consumer, that is said to have an entry owns it, and no two have the same |
| CasProgress.AccessCan | queue.h:66-148 | whoever has a list operation under way can make its next access |
| CasPipeline.StepMatches | worker.c:278-334 | one access of any worker, connection or output is one move of `Pipeline` or none, and which, under one taker per list; a null load of the output's free list is the worker's last |
| CasPipeline.RunsArePipelineRuns | worker.c:278-334 | under one taker per list every interleaving of accesses of workers, connections and output, in which a worker that finds the output full goes no further, is a `Pipeline` run |
| CasPipeline.OutputPremise | queue.h:78-86 | the output's queue has one taker per list, and is sound in every run of its operations, if and only if at most one worker feeds it or it has one entry |
| CasPipeline.OutputHeadIsThere | output.c:134-135 | under one taker per list what the output asserts after its wait holds at every access of every run, a worker that finds the output full going no further |
| CasPipeline.OutputFullIff | queue.h:78-82 | under one taker per list, between any two accesses the output's free list is null if and only if the full chain, reserved entries and the one with the output thread make up all its entries |
| CasPipeline.MissIsLast | worker.c:296-328 | a worker that loads a null free list never reserves, pushes, calls its function on that message or recycles it after that, in any run |
| CasPipeline.DrainedAtEveryAccess | output.h:72-86 | under one taker per list, when every thread of the code is idle, so none has found the output full, the output has sent the result of every message any worker accepted, exactly once, and nothing else |
| CasWire.StepMatches | worker.c:296-334 | one access, store, call or send of any thread is one act of `OutputRuns` or none, on the very same bytes, under one taker per list |
| CasWire.RunsAreWiredRuns | worker.c:296-334 | under one taker per list every interleaving of accesses and stores is a run of `OutputRuns` with the same bytes and wire, whose lists are the linked chains |
| EndToEnd.StreamOfTheCode | worker.c:296-334 | one worker per output or a one-entry output, one input thread per worker queue or one-entry queues, and calm memory: in every interleaving of the code's accesses and stores the entries of the output's full chain hold their frames, the wire is what the sends let through and parses back to what was sent exactly when no send failed, and when all is idle it carries exactly the results of all accepted messages |
| EndToEnd.ChainHoldsResults | worker.c:303-328 | under the same premises every entry on the output's full chain is the ids of a worker, the length, and what its function gave for a message it accepted |
| EndToEnd.StoresStayInside | worker.c:303-328 | under the same premises every header, result, length and clearing store that is due at any point of any interleaving, and every send, stays inside its entry |
| Progress.WorkersNeverStuck | worker.c:278-334 | under the same premises a worker that has not found the output full can always take its next step, unless it waits at a zero semaphore |
| Progress.SenderNeverStuck | output.c:125-139 | under the same premises the output thread can always take its next step, unless it waits at a zero semaphore |
| Streams.StepKeeps | input.c:217-280 | every access, store or call of any thread keeps: what a connection has sent is its finished messages and the one under way, each connection holds an entry only of the worker and queue its header names, and the workers have accepted what was admitted and what is on a list without its signal |
| StreamResults.MessagesReachTheirWorkers | input.c:163-177 | one worker per output or a one-entry output, and one input thread per worker queue or one-entry queues: at every point of every interleaving a worker has accepted each message as often as it was admitted with that worker's id in its header, or is on its list with the signal to come |
| StreamResults.EntriesAsAddressed | worker.c:113-125 | and the entry a connection has is of the queue its header names, at the worker it names; it has one exactly from the search to the push, and none between messages |
| StreamResults.AnswersAreRight | input.c:163-232 | and each finished message was answered as header and workers demand, refused in spite of them only for want of an entry, and thrown away only if it fits the stack and meets no unset pointer |
| StreamResults.SentParses | input.c:197-280 | and the messages a connection has finished are the first frames of the bytes it has sent, and all of them between messages |
| StreamResults.ConnectionsNeverStuck | input.c:197-280 | and a connection in the middle of a message whose bytes come can go on, or its thread can with a list operation |
| StreamResults.ResultsOfTheStreams | input.c:197-280 | under the same premises and calm memory, when all is idle and no send failed the output's stream parses to exactly one frame for each admitted message: the ids of the worker its header names and what that worker's function gives for its body |

## Left out

- Weak memory: loads, stores and swaps are sequentially consistent, and cache-line padding does not appear.
- Atomicity of the input side: `Delivery` takes one call of `input_serveConnection`, one wait with its scan, and one function call with the recycling as single steps; `Streams` takes calls apart into list accesses, for connections whose reads bring whole headers and whole bodies.
- Two takers: no claim is made about runs that break the premise beyond `CasPremise`.
- Semaphore start-up, `EEXIT` paths, and an interrupted `semop`, which changes nothing.
- Order within a queue: both lists are stacks, so no first-in first-out claim.
- Liveness of buffered bytes: connections are edge-triggered and one call takes at most one message.
- Fairness: threads are shown never to be stuck, not that the scheduler runs them.
- Sockets, `epoll`, accept, thread creation, affinity, barriers: only the calls they lead to appear.
- Command-line parsing and wiring in main.c, function loading in func.c, the plug-ins: a worker's function is any map whose result fits the space it is offered.
- uthash tables are finite maps from ids; dumps, verbose printing, hexdump.c and sem.c do not appear.
- WorkerLayout.New: a failed allocation is not modelled, and a negative sum gets an array of no slots.
- QueueLayout.Queue.Init: requires qlen >= 1, which the code asserts, and the block worker_new allocates.
- Output.Worker.Run: requires the function to keep to the space offered, and a capacity above 8, which the code asserts; the worker without an output, which frames nothing, does not appear.
- Output.Sender.Drain: covers the entries on the list when it starts, with no wait; the loop with its waits and with pushes while it sends is in OutputRuns and CasPipeline.
- OutputRuns.EntriesCarryFrames: requires functions to keep to the space offered, at most 2^31 - 9 bytes, so that the frame's 32-bit length holds the result; and calm memory, whose exact condition over all runs is FullOutput.FramesHoldIff.
- EndToEnd.StreamOfTheCode: requires calm memory; a run in which a worker has stored without an entry, and results differ, is outside it.
- ChannelRuns.OutputAssertHolds: list operations are single steps; CasChannelRuns.HeadIsThere is the statement access by access.
- Pipeline.ResultsAccounted: list operations are single steps; CasPipeline.RunsArePipelineRuns carries it to accesses under one taker per list.
- Pipeline.DrainedPipeline: list operations are single steps; CasPipeline.DrainedAtEveryAccess is the statement access by access.
- Pipeline.OutputFindsEntry: list operations are single steps; CasPipeline.OutputHeadIsThere is the statement access by access.
- CasChannel.StepMatches: entries' lengths do not appear there; CasRuns.FreeEntriesAreClean and OutputRuns.EntriesCarryFrames are about them.
- Delivery.SignalsCountEntries: push and signal are one step there; CasChannelRuns.TokensAtEveryAccess has the moment between them.
- Input.Connection.Serve: nothing is said of the run after a bad queue index has met an unset pointer that is not null, which UnsetPointer follows; a datalen above 2^31 - 9 and a refused body longer than the stack parameter count as aborts, and the stack buffer for drained bytes is a fresh array.
- InputRuns.FollowsOneShot: the same; a run that the plan ends is followed no further.
- Delivery.CompletedAreAccounted: the same; UnsetPointer.StrayCorruptsIff says what a stray body does to another message.
- UnsetPointer.HarmlessIff: what a stray store does to lists, links or memory outside the entries is not followed.
- FullOutput.FramesHoldIff: what a result longer than the old entry's room overwrites beyond it, and what a worker stores through pointers that are into no entry, is not followed.
- RoundRobin.Worker.GetFullEntry: one step, where the code has a retry loop; QueueOps.SharedQueue.Take is that loop.
- RoundRobin.Worker.ScanFull: producers only push between probes, one worker pops, as in the program.
