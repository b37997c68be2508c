# isere: a verified model of the server core

isere serves HTTP requests with a JavaScript function on a small device. Its core is one task that polls
sockets, feeds a parser, starts a JavaScript context per request and polls the contexts until they are done.
This project models that core and proves what it relies on.

| file | models |
|---|---|
| `power_of_two.dfy` | the unsigned arithmetic that sizes the watcher table |
| `ring.dfy` | the intrusive circular list, over real nodes |
| `poll_slots.dfy`, `poll_array.dfy` | the array handed to poll: as a sequence, and in place |
| `loop_model.dfy`, `loop_outcomes.dfy`, `stale_slots.dfy`, `event_loop.dfy` | the poll loop: as a state machine, what each operation makes of every bit and slot, what becomes of slots nobody watches, and as a class over array, table and ring |
| `run_queue.dfy` | the drain loop over running contexts, as a function from queue and engine to a log |
| `server_model.dfy`, `server_outcomes.dfy`, `httpd.dfy` | the life of connections: as a state machine over the loop, what each step makes of whom, and as a class |
| `server_script.dfy`, `server_failure.dfy` | what the outside offers to the server in a round, and the one history that it leads to; the history that reaches the double free |
| `text_buffer.dfy`, `request.dfy` | the bounded buffers that the parser callbacks fill |
| `header_table.dfy` | the headers packed into two tables, and the pointer walk that finds them again |
| `timer_model.dfy`, `timers.dfy` | the five timer slots of a context |
| `wrappers.dfy` | `Option` |

The parts that change state come in pairs. The class or method does what the C code does, on fields, arrays and
linked nodes, and its contract equates the new state with a function of the old one and of what was offered to it:
for a whole poll, drain or round, with the state after the history that its inputs lead to. The theorems are about
that function and about all its runs. The socket, the parser, the engine and the kernel's timers choose freely: every
outcome that they can have is an argument of a step. A round's arguments name connections by descriptor, so that they
reach also those that are accepted later. What is done to connections, a poll of the context, a write or the freeing,
is kept in a log, in the model and by the class.

What the model takes for granted, because the code does:

- At most one active watcher per descriptor (`src/internals/uv_poll.c:181-184` does not register a second).
- One run of the parser on a chunk is one step, with at most one complete message.
- The parser reports no error after a message that was rejected, or that no handler is there for: the exact
  condition under which `src/httpd.c:252-257` frees no connection twice (see below).
- `accept` never returns a descriptor that is open, nor the allocator memory that is in use.
- The mask that poll reports is arbitrary; after an interruption the pass works on the old one.

Where the code does less than it seems to promise, the exact condition is proved:

- The cleanup after a parser error (`src/httpd.c:252-257`) does not ask whether the message that completed before
  the error has freed the connection already (`src/httpd.c:191-205`). The second cleanup is of a live connection,
  and the invariant is kept, exactly unless a message completed, an error followed, and the path was rejected or
  there is no handler. In that case the descriptor is closed twice and the counter misses a connection
  (`OnPollExact`, `NextExact`). It is reached from the start in six events (`DoubleFreeReached`). Runs are of events
  outside that case.
- A cleanup closes the descriptor but leaves its slot in the poll array (`src/httpd.c:367-388`). The slot lasts until
  the next pass that visits it with nobody registered, so at most one more dispatched poll names a closed descriptor
  that is not used again (`PassLeavesOnlySeen`, `NotPolledAgain`).
- `src/internals/uv_poll.c:173` admits the descriptor 2^31 - 2. For it the table would get 2^32 - 2 entries in a
  block of none. With pointers and sizes of 8 bytes the widening is right for all smaller ones; with 4 bytes the
  size of the block wraps from 2^29 - 2 on (`TableSizeExact`, `BlockBytesExact`).
- The buffers of `src/httpd.c:28-179` depend on how the bytes are cut into chunks exactly when a NUL that fits has
  something else behind it (`FragmentationIndependent`).
- `src/http_handler.c:24` copies 64 bytes of a value whose buffer has 512, and the walk in
  `src/runtimes/quickjs/quickjs.c:140-153` cannot see an empty row. RFC 9110, section 5.5, allows an empty field
  value. The engine gets the right pairs exactly when none of the first sixteen headers, except the very first, has
  an empty name or value; in every other case the walk leaves its tables (`EndToEnd`).
- `src/polyfills/quickjs/timer.c:72-78` keeps the function in a slot that it leaves free. A later `setTimeout`
  overwrites it, and that reference is never given back (`FailedCreationLoses`, `ReleasedOnce`). A slot whose
  timer was cleared is not used again until the context is closed (`ClearedSlotStaysTaken`).

## Model

| member | source | states |
|---|---|---|
| PowerOfTwo.NextPowerOfTwo | src/internals/uv_poll.c:124-133 | In 32-bit unsigned arithmetic the five smears find the least power of two at or above the argument on 1 to 2^31, and wrap to zero everywhere else |
| PowerOfTwo.SmearAll | src/internals/uv_poll.c:126-130 | Five shift-and-or steps set every bit below the highest one |
| PowerOfTwo.DoubleUntilLeast | src/internals/uv_poll.c:124-133 | The doubling reference is a power of two, is at least the argument, and no smaller power of two is |
| PowerOfTwo.TableSizeExact | src/internals/uv_poll.c:154-176 | The widened table has the intended size, two short of a power of two, and its count of entries with the two behind it does not wrap, exactly for descriptors up to 2^31 - 3 |
| PowerOfTwo.BlockBytesExact | src/internals/uv_poll.c:154-176 | The block that is asked for holds the table exactly for descriptors up to 2^31 - 3 with pointers and sizes of 8 bytes, and up to 2^29 - 3 with 4 |
| EventLoop.EventLoop.MaybeResize | src/internals/uv_poll.c:135-167 | The table has room for the length asked for, keeps its entries, has nulls in the new ones, and the two trailing entries move to the new end |
| Ring.Init | include/libuv/queue.h:33-36 | The node is a ring of its own |
| Ring.Empty | include/libuv/queue.h:38-40 | True exactly for the head of an empty list |
| Ring.Head | include/libuv/queue.h:42-44 | The first element, or the head itself when there is none |
| Ring.InsertHead | include/libuv/queue.h:75-81 | Prepends to the list |
| Ring.InsertTail | include/libuv/queue.h:83-89 | Appends to the list |
| Ring.Remove | include/libuv/queue.h:91-94 | Deletes exactly the one node and leaves its own pointers stale; does nothing to a node that is a ring of its own |
| Ring.Add | include/libuv/queue.h:50-55 | The target becomes the concatenation of both lists |
| Ring.Split | include/libuv/queue.h:57-66 | The list is cut before the node; each head has its part |
| Ring.Move | include/libuv/queue.h:68-73 | Everything is transferred in order and the source is left empty, also from an empty source |
| Ring.RingUnique | include/libuv/queue.h:22-25 | The pointers determine the sequence: a ring has one reading only |
| Ring.Enlist | src/internals/uv_poll.c:178-179 | Appends unless the node is on the list already, which the node alone shows |
| Ring.Delist | src/internals/uv_poll.c:203-204 | Takes the node off if it is on the list and makes it a ring of its own |
| Ring.Unlist | src/httpd.c:371-373 | Takes the node off if it is on the list, safely also when it was popped before |
| PollArray.PollArray.constructor | src/internals/uv_poll.c:289-295 | The array starts empty, without memory, and not iterating |
| PollArray.PollArray.MaybeResize | src/internals/uv_poll.c:39-59 | There is room for one more; the capacity is kept, becomes 64, or doubles; slots and cleared rest are preserved |
| PollArray.PollArray.Swap | src/internals/uv_poll.c:62-67 | Exchanges two slots and changes no other |
| PollArray.PollArray.Add | src/internals/uv_poll.c:70-91 | Updates the slot of the descriptor or appends one, and does nothing during a pass |
| PollArray.PollArray.Del | src/internals/uv_poll.c:94-122 | The scan that looks again at a swapped slot computes the deletion of the descriptor and clears what it frees; nothing happens during a pass |
| PollArray.PollArray.Invalidate | src/internals/uv_poll.c:305-322 | During a pass matching slots are cleared where they are; otherwise they are deleted |
| PollSlots.PurgeKeepsOthers | src/internals/uv_poll.c:101-121 | Deleting -1 leaves exactly the other slots, each as often as before |
| PollSlots.DelRemovesFirst | src/internals/uv_poll.c:101-121 | Deleting an ordinary descriptor removes its first slot only |
| PollSlots.DelKeepsOthers | src/internals/uv_poll.c:101-121 | With unique descriptors that leaves exactly the other slots, each as often as before |
| PollSlots.TombstoneStep | src/internals/uv_poll.c:310-317 | Clearing in place makes poll stop watching exactly the descriptor, moves nothing and keeps descriptors unique |
| PollSlots.DelStep | src/internals/uv_poll.c:318-321 | Deletion makes poll stop watching exactly the descriptor and keeps descriptors unique |
| PollSlots.RemovalsAgree | src/internals/uv_poll.c:310-321 | Both removals refine one step: the same is watched after either, and after a purge the same slots remain |
| PollSlots.AddStep | src/internals/uv_poll.c:70-91 | Adding makes poll watch the descriptor with the mask and keeps descriptors unique; no report changes, and nothing at all changes for others; a new slot has nothing reported |
| EventLoop.Watcher.constructor | src/httpd.c:313-318 | A new watcher has no masks and is on no list |
| EventLoop.EventLoop.constructor | src/httpd.c:338-342 | The loop starts empty |
| EventLoop.EventLoop.IoStart | src/internals/uv_poll.c:169-185 | The fields represent the started state, which LoopOutcomes.StartOutcome gives bit by bit: masks joined, the watcher pending, entered and counted if its entry is free |
| EventLoop.EventLoop.IoStop | src/internals/uv_poll.c:187-215 | The fields represent the stopped state, which LoopOutcomes.StopOutcome gives bit by bit: the mask shrinks; when it is empty the watcher is off the list, out of the table and not counted; otherwise it is pending |
| EventLoop.EventLoop.TakeFirst | src/internals/uv_poll.c:230-243 | The first pending watcher leaves the list and gets its slot with its current mask |
| EventLoop.EventLoop.FlushQueue | src/internals/uv_poll.c:229-243 | Every pending watcher is taken, in order |
| EventLoop.EventLoop.BeginPoll | src/internals/uv_poll.c:217-253 | The fields represent the state after the start of a poll, whose slots and mark LoopOutcomes.PollOutcome gives; its result says whether there is a pass |
| EventLoop.EventLoop.VisitSlot | src/internals/uv_poll.c:256-284 | The fields represent the state after a visit, and its result is whom to call with what, which LoopOutcomes.VisitOutcome gives bit by bit |
| EventLoop.EventLoop.EndPoll | src/internals/uv_poll.c:286-287 | The pass is over and nothing else has changed |
| EventLoop.EventLoop.InvalidateFd | src/internals/uv_poll.c:305-322 | The slots change as the mark of a pass demands and nothing else does |
| LoopModel.StartKeepsInv | src/internals/uv_poll.c:169-185 | Start keeps the table, counter, pending list, slots and growth in agreement |
| LoopModel.StopKeepsInv | src/internals/uv_poll.c:187-215 | Stop keeps them in agreement, whether the mask becomes empty or not and whether or not the watcher is pending or in the table |
| LoopModel.FlushKeepsInv | src/internals/uv_poll.c:229-243 | Taking the pending watchers into the array keeps them in agreement and ends with nothing pending |
| LoopModel.InvalidateKeepsInv | src/internals/uv_poll.c:305-322 | Invalidating a descriptor that nobody watches keeps them in agreement, in a pass or outside one |
| LoopModel.RunKeepsInv | src/internals/uv_poll.c:169-287 | Every interleaving of start, stop, invalidation, poll, visits and callbacks keeps them in agreement |
| LoopModel.PollSeesEveryWatcher | src/internals/uv_poll.c:224-245 | When poll is called, after any history, each registered watcher has exactly one slot, with its descriptor and its mask |
| LoopModel.AssertionsHold | src/internals/uv_poll.c:208-266 | After any history every assertion inside stop and poll holds, and the counter is the number of taken entries |
| LoopModel.GrowthIsAmortised | src/internals/uv_poll.c:39-59 | After any history the capacity is 0 or 64 times a power of two, at most twice the peak use, and all reallocations together copied fewer entries than it holds |
| LoopModel.PassIsStable | src/internals/uv_poll.c:250-287 | During a pass no start, stop or invalidation in any callback moves or adds a slot, or ends the pass |
| LoopModel.DeliveryExact | src/internals/uv_poll.c:262-283 | A callback goes to a watcher with a mask exactly when it is registered at that instant for the slot's descriptor and the mask has each input or output bit that is reported and asked for, each error bit that is reported, no other, and at least one |
| LoopModel.StaleSlotInvalidated | src/internals/uv_poll.c:270-274 | A slot nobody watches is cleared when the pass reaches it, and only that slot |
| LoopOutcomes.StartOutcome | src/internals/uv_poll.c:169-185 | Every bit asked for is added and none is lost; the watcher is pending, last unless it was before, and is at its descriptor in the table; every other watcher, entry and slot is as it was, and the counter goes up exactly if it was not registered |
| LoopOutcomes.StopOutcome | src/internals/uv_poll.c:187-215 | Exactly the bits named are taken away; with none left the watcher is not pending, not in the table and not counted, otherwise it is pending; every other watcher, entry and slot is as it was; nothing happens without room in the table |
| LoopOutcomes.FlushOutcome | src/internals/uv_poll.c:229-243 | Slots keep descriptors and reports, get another mask only as that of a pending watcher for their descriptor, and each new slot is for a pending watcher with nothing reported |
| LoopOutcomes.PollOutcome | src/internals/uv_poll.c:217-254 | An idle loop is as it was; otherwise nothing is pending, the table is the same, there is a pass exactly unless poll failed, and each slot has what this poll reported for it, or else what it had before |
| LoopOutcomes.VisitOutcome | src/internals/uv_poll.c:256-284 | A visit changes its own slot alone: a cleared one stays, one that nobody watches is cleared, and in any other exactly the reported bits that were asked for and the error bits remain, which are what the watcher is called with |
| StaleSlots.PassLeavesOnlySeen | src/internals/uv_poll.c:256-287 | After a pass that visits every slot, with any callbacks, each slot that still has a descriptor was visited while somebody was registered for it: it is for a registered watcher, or for one stopped since its visit |
| StaleSlots.NotPolledAgain | src/internals/uv_poll.c:224-287 | Once a whole pass has gone by with nobody registered for a descriptor, no slot has it, in the array and in what any later poll is called with, until somebody is registered for it again |
| RunQueue.DrainIsFair | src/httpd.c:432-468 | However connections interleave, each has exactly the history it would have alone, and what is not queued is not touched |
| RunQueue.SoloRetiresOnce | src/httpd.c:450-468 | A history is polls, as long as the response is incomplete and the answer has a job that ran or an active timer; then one free, preceded by one write unless a job failed with the response incomplete; stated of the answers themselves |
| RunQueue.KeptExactly | src/runtimes/quickjs/quickjs.c:379-400 | A context is kept exactly when its response is incomplete, its job did not fail, and a job ran or a timer is active; it is abandoned exactly when its job failed with the response incomplete |
| RunQueue.DrainInRounds | src/httpd.c:432-468 | The loop polls the whole queue in order, then goes on with those kept, in order |
| RunQueue.PollsAt | src/httpd.c:432-461 | The n-th poll is that of the head of the queue after n turns |
| RunQueue.RoundRobin | src/httpd.c:454-461 | Between any two consecutive polls of a connection, anywhere in the drain, every other connection that is queued then is polled exactly once, in queue order |
| RunQueue.WorkDrops | src/httpd.c:432-468 | Each turn uses up an answer or retires a connection, so finitely many answers end the loop |
| ServerModel.CleanupKeeps | src/httpd.c:367-388 | Cleaning up any connection in the middle of its life keeps the invariant of the whole server |
| ServerModel.OnMessageCompleteKeeps | src/httpd.c:181-217 | A complete message keeps the invariant and ends reading: the connection is freed when it is rejected or there is no handler, and runs otherwise, with its response complete already or not |
| ServerModel.OnPollKeeps | src/httpd.c:219-258 | Every outcome of receive and parser keeps the invariant, an error after a queued message included, but for an error after a message that freed the connection |
| ServerModel.OnPollExact | src/httpd.c:249-257 | The invariant is kept exactly unless a message freed the connection and an error followed; then the descriptor is closed once more than it was accepted and the counter is one less than the connections |
| ServerModel.OnConnectedKeeps | src/httpd.c:260-321 | Every outcome of accept and allocation keeps the invariant |
| ServerModel.DrainOneKeeps | src/httpd.c:432-468 | Every outcome of polling the context at the head of the run queue keeps the invariant |
| ServerOutcomes.CleanupOutcome | src/httpd.c:367-388 | A cleanup closes the connection's descriptor once, gives it up on every list, and changes no other connection, nor the order of the run queue |
| ServerOutcomes.MessageOutcome | src/httpd.c:181-217 | A complete message puts the connection last on the run queue exactly when there is a handler and the path is accepted, its response complete if the script completed it while it was evaluated; otherwise it is answered 404 or 200 and freed, in that order; no other connection changes |
| ServerOutcomes.OnPollOutcome | src/httpd.c:219-258 | New input leaves everything as it is, queues the connection or frees it once, after a 413, 404 or 200 where the code writes one, exactly by receive result, parser outcome and handler, if it does not free it twice; no other connection changes |
| ServerOutcomes.ReceiveOutcome | src/httpd.c:232-257 | By the length received: -2 changes nothing; any other up to 0 frees the connection; beyond the maximum it is answered 413 and freed; otherwise it fares by what the parser made of it |
| ServerOutcomes.PollStepOutcome | src/httpd.c:423-426 | A poll step begins a pass exactly unless poll fails, each slot has what this poll reported for it or else what it had before, and nothing else of the server changes |
| ServerOutcomes.VisitStepOutcome | src/internals/uv_poll.c:256-287 | A visit step goes on to the next slot; if its target is a connection, that one meets the fate of what it received, if it is the listener it accepts, and nobody else is touched |
| ServerOutcomes.DrainOutcome | src/httpd.c:434-467 | A turn of the drain loop puts the head last on the queue or frees it, exactly by the verdict on its poll; no other connection changes |
| ServerOutcomes.AcceptOutcome | src/httpd.c:260-321 | Below the maximum an accepted descriptor becomes one more reading connection, or without memory is closed at once; otherwise nothing happens, and no connection changes |
| ServerModel.NextKeepsInv | src/httpd.c:423-476 | Every step of the server task that frees no connection twice keeps the invariant over loop, run queue, allocator and counter, in every phase |
| ServerModel.NextExact | src/httpd.c:219-258 | A step that the outside can bring about keeps the invariant exactly unless it frees a connection twice |
| ServerFailure.DoubleFreeReached | src/httpd.c:249-257 | From the launched server, with a handler or without, six possible events lead to a state in which the visit of a connection, a rejected message and then an error, is feasible and frees it twice; the count is wrong after it |
| ServerModel.LaunchInv | src/httpd.c:408-415 | The invariant holds when the listener has been started |
| ServerModel.OnePhase | src/httpd.c:181-321 | After every history each live connection is either reading or running, and a running one is on the run queue exactly once |
| ServerModel.FreedIsUnreachable | src/httpd.c:367-388 | After every history freed memory is on neither list, not in the table, and no slot leads to it |
| ServerModel.Conservation | portable/linux/src/tcp.c:71-148 | After every run of steps that free no connection twice the counter is the number of live connections, within 0 and the maximum; every accepted descriptor is closed at most once and is open until then |
| ServerModel.IteratingExactlyInPass | src/internals/uv_poll.c:250-287 | The mark of a pass is set in passes and at no other time; between rounds the run queue is empty |
| ServerModel.PollSeesServer | src/httpd.c:423-426 | Poll is never skipped, and when it is called the listener and each reading connection have exactly one slot, for input |
| ServerScript.RoundDetermined | src/httpd.c:423-469 | What the outside offers in a round determines it: two histories that answer the same offers from the same state, with the same memory for new connections, are one |
| ServerScript.VisitsCarryInputs | src/internals/uv_poll.c:256-287 | In a poll that begins a pass, every slot is visited once and in order, and the i-th visit carries the i-th input: length and parser outcome to a connection, descriptor and memory to the listener, which accepts exactly if it can |
| ServerScript.DrainByDescriptor | src/httpd.c:432-468 | A drain does to each queued connection what the answers offered for its descriptor lead to when it is alone, and to any other live connection nothing |
| ServerScript.TolerableVisit | src/httpd.c:249-257 | An input without an error after a message that frees leads to no double free, whatever slot it is for |
| ServerScript.DrainTurn | src/httpd.c:432-468 | A drain step with the engine's next answer for the head's descriptor is one turn of the drain function: what is logged and what is still to do are together the same |
| ServerScript.DrainLogged | src/httpd.c:432-468 | Every history of drain steps that answers the offers and empties the queue adds to the log exactly what the drain function gives for the queue and the engine at its start |
| Httpd.Conn.constructor | src/httpd.c:285-318 | A new connection has no context and no complete response, and its links are on no list |
| Httpd.Httpd.constructor | src/httpd.c:323-352 | A new server has no connections, an empty loop and an empty run queue |
| Httpd.Httpd.Launch | src/httpd.c:408-415 | The listener is registered for input with a loop that was empty, and there are no connections |
| Httpd.Httpd.TcpAccept | portable/linux/src/tcp.c:122-149 | A descriptor is returned exactly when the maximum is not reached and the kernel offers one, it is the one offered, and then and only then the counter goes up and the descriptor counts as accepted |
| Httpd.Httpd.TcpClose | portable/linux/src/tcp.c:71-75 | The given descriptor counts as closed and the counter goes down by one |
| Httpd.Httpd.WriteTo | src/httpd.c:194-204 | A write to a connection is logged and changes nothing else |
| Httpd.Httpd.CleanupConn | src/httpd.c:367-388 | Context and registration of the connection are given up, its own descriptor is closed, its memory freed and that logged, as in the model, and of no other |
| Httpd.Httpd.OnMessageComplete | src/httpd.c:181-217 | Reading stops; a rejected path or a missing handler frees the connection at once, otherwise it gets a context, its handler is evaluated, which may complete the response, and it joins the end of the run queue, as the model has it |
| Httpd.Httpd.CleanupAnyway | src/httpd.c:252-257 | A cleanup of a connection that may be freed already is a full cleanup if it is not, and otherwise closes the descriptor again and lowers the counter |
| Httpd.Httpd.OnPoll | src/httpd.c:219-258 | For every receive length and parser outcome, the double free included, the connection, the loop, the run queue, the counter, the record of descriptors and the log change as the model has it; the cleanup after an error is unconditional |
| Httpd.Httpd.OnConnected | src/httpd.c:260-321 | A descriptor is accepted exactly when there is input, the maximum is not reached and the kernel offers one that is not open; it is the one offered, and becomes a registered connection or, without memory, is closed again; otherwise nothing changes |
| Httpd.Httpd.CallBack | src/internals/uv_poll.c:277-283 | The listener's callback accepts what is offered exactly if it can be, and a connection's gets the offered receive length and parser outcome; the new state is that of the callback |
| Httpd.Httpd.VisitSlot | src/internals/uv_poll.c:256-284 | One iteration of the pass is the model's step with the offered input for the slot's target, and calls nobody back if there is none |
| Httpd.Httpd.IoPoll | src/internals/uv_poll.c:217-287 | A whole poll is the run of the history that the answer and the inputs lead to: one poll with that answer, first, then a visit of every slot in order, the i-th with the i-th input, and it ends outside the pass |
| Httpd.Httpd.DrainOne | src/httpd.c:434-467 | One turn of the drain loop is the model's step for the engine's answer: the poll, the write and the freeing are logged as the verdict says |
| Httpd.Httpd.DrainRunQueue | src/httpd.c:432-468 | The loop ends with an empty queue, its history uses the engine's answers for each descriptor in order, and the log has grown by exactly what the drain function gives, which for each connection is what the answers for its own descriptor lead to |
| Httpd.Httpd.Serve | src/httpd.c:423-469 | A round of the server task is the run of the history that the round's offers lead to, with one poll, and ends before the next poll |
| Httpd.Httpd.Shutdown | src/httpd.c:471-475 | The listener is stopped: its mask is empty and the model has taken the exit |
| Httpd.Httpd.Task | src/httpd.c:423-476 | For all rounds whose inputs free no connection twice, the server task is the run of their histories, one per round and each the one its offers lead to, followed by the exit; its fields, the record of descriptors and the log included, are those of the run |
| Httpd.Httpd.Accounts | portable/linux/src/tcp.c:71-148 | In every state of a run the counter field is the number of connections, the descriptors accepted are those closed and those of the connections, and each connection is registered for input or on the run queue, by its own fields |
| Httpd.Boot | src/httpd.c:323-476 | From creation through launch and any number of rounds to the end, the server is at the end of the history that the rounds lead to from the launched model, and its fields account for every descriptor |
| TextBuffer.StrLen | src/httpd.c:33 | The length of the text before the first NUL |
| TextBuffer.StrNCpy | src/httpd.c:44 | Exactly the n bytes at the offset become the text of the source and its padding |
| TextBuffer.Append | src/httpd.c:28-46 | The room is computed without underflow, and the buffer becomes the old text, the part of the chunk that fits, and padding |
| TextBuffer.AppendedIsPrefix | src/httpd.c:28-46 | After a chunk the buffer holds the longest prefix of text and chunk that leaves room for the terminator, and nothing else |
| TextBuffer.Filled | src/httpd.c:28-72 | Any list of chunks leaves in a cleared buffer the prefix, one shorter than the buffer, of the chunks' texts, terminated |
| TextBuffer.HoldsPrefix | src/httpd.c:28-72 | The text held is the prefix of the bytes received exactly when no NUL is among the bytes that fit |
| TextBuffer.FragmentationIndependent | src/httpd.c:28-179 | For every capacity and all bytes: all ways to cut the bytes into chunks leave the same buffer exactly when nothing but NULs is behind a NUL among the bytes that fit |
| TextBuffer.FragmentationDependsOnNul | src/httpd.c:44 | An input, for every buffer of three bytes or more and so for all of the connection's, that two ways to cut leave different buffers for |
| HttpRequest.StepIsBounded | src/httpd.c:81-153 | A callback keeps the buffers equal to the part that fits of everything sent, row by row |
| HttpRequest.Run | src/httpd.c:28-179 | Every list of callbacks, in any order, from cleared memory leaves the part that fits of everything sent, and all buffers stay terminated |
| HttpRequest.PairedCounts | src/httpd.c:105-153 | While fields and values alternate, at every moment values are at most fields and fields at most one more, both at most sixteen |
| HttpRequest.HeadersHeld | src/httpd.c:81-153 | However headers are cut and whatever comes in between, the buffers hold the first sixteen, name i with value i, cut to 63 and 511 bytes |
| HttpRequest.TextsHeld | src/httpd.c:28-179 | However they are cut and whatever comes in between, the buffers of method, path and body hold the texts of their own chunks in order, cut to 15, 255 and 511 bytes |
| HttpRequest.Request.constructor | src/httpd.c:285 | The buffers of a new connection are those of the empty run |
| HttpRequest.Request.OnMethod | src/httpd.c:28-46 | The method's buffer takes the chunk: the buffers are those of the run with this call added |
| HttpRequest.Request.OnUrl | src/httpd.c:54-72 | The path's buffer takes the chunk: the buffers are those of the run with this call added |
| HttpRequest.Request.OnHeaderField | src/httpd.c:81-103 | The name of the current header takes the chunk, or nothing does after sixteen: the buffers are those of the run with this call added |
| HttpRequest.Request.OnHeaderFieldComplete | src/httpd.c:105-116 | The count of names goes up to at most sixteen, and the terminator that is written was there already: the buffers are those of the run with this call added |
| HttpRequest.Request.OnHeaderValue | src/httpd.c:118-140 | The value of the current header takes the chunk, or nothing does after sixteen: the buffers are those of the run with this call added |
| HttpRequest.Request.OnHeaderValueComplete | src/httpd.c:142-153 | The count of values goes up to at most sixteen: the buffers are those of the run with this call added |
| HttpRequest.Request.OnBody | src/httpd.c:161-179 | The body's buffer takes the chunk: the buffers are those of the run with this call added |
| HeaderTable.SetRow | src/http_handler.c:22-25 | Copying up to a stride of bytes to an empty row sets that row of the flat table and no other |
| HeaderTable.Pack | src/http_handler.c:20-25 | The two flat tables hold the starts of the first n names and values, and nothing after them |
| HeaderTable.Skip | src/runtimes/quickjs/quickjs.c:148-151 | For each pointer the two inner loops skip to the next NUL and from there to the next byte, and fail exactly when there is none in the table |
| HeaderTable.AdvanceToRow | src/runtimes/quickjs/quickjs.c:148-151 | From the first byte of any row one advance lands on the first byte of the next non-empty row, and leaves the table when there is none, for every stride |
| HeaderTable.VisitExact | src/runtimes/quickjs/quickjs.c:140-153 | A walk for n strings stays in the table exactly when rows 1 to n-1 are not empty, and then reads the n rows in order |
| HeaderTable.VisitTooMany | src/runtimes/quickjs/quickjs.c:140-153 | With fewer non-empty rows ahead than strings to read, the walk leaves the table, wherever it is |
| HeaderTable.Walk | src/runtimes/quickjs/quickjs.c:140-153 | The loop with both pointers hands over the pairs of the two walks, or reports that one left its table |
| HeaderTable.Deliver | src/httpd.c:212-213 | As many pairs as the smaller count are handed over, if any, and what the engine gets is what packing and walking give for the run so far |
| HeaderTable.EndToEnd | src/runtimes/quickjs/quickjs.c:140-153 | For every fragmentation, each chunk taken up to its first NUL, the engine gets the first sixteen headers in order, names cut to 63 bytes and values to 64, exactly when none of them but the very first has an empty name or value; otherwise the walk leaves its tables |
| TimerModel.PerformAllKeepsTaken | src/polyfills/quickjs/timer.c:13-22 | Nothing that a script does changes a slot that has a timer |
| TimerModel.CallbackKeepsSlot | src/polyfills/quickjs/timer.c:24-44 | When a callback ends, its slot is still the one that fired; freeing it loses no timer that the script started meanwhile; around the script's calls it takes one reference and gives two back, and only its own timer stops |
| TimerModel.CallOutcome | src/polyfills/quickjs/timer.c:46-100 | A request takes one reference, puts the function in the first free slot with the timer that was created, and makes exactly that timer active if it was started; with no free slot nothing happens; clearing makes exactly one timer inactive |
| TimerModel.RunKeepsInv | src/polyfills/quickjs/timer.c:24-100 | After every run active timers are in slots of their own, and each reference taken is given back, in one slot, or lost |
| TimerModel.ReleasedOnce | src/polyfills/quickjs/timer.c:118-133 | After closing, taken equals given back plus lost, and nothing is lost exactly when no setTimeout found a function in a free slot |
| TimerModel.CreatedReleasedOnce | src/polyfills/quickjs/timer.c:24-133 | If every timer is created, each outstanding reference is in exactly one slot, and after closing each was given back as often as taken |
| TimerModel.FailedCreationLoses | src/polyfills/quickjs/timer.c:72-78 | A failed creation followed by another timeout loses the first function |
| TimerModel.PollExact | src/polyfills/quickjs/timer.c:148-159 | Some slot has an active timer exactly when any timer is active, and at most five are |
| TimerModel.ClearedSlotStaysTaken | src/polyfills/quickjs/timer.c:91-100 | A slot whose timer was stopped or not started stays as it is through every run |
| Timers.TimerTable.constructor | src/polyfills/quickjs/timer.c:109-115 | All slots are free |
| Timers.TimerTable.GetFreeSlot | src/polyfills/quickjs/timer.c:13-22 | The first slot without a timer, or none |
| Timers.TimerTable.DupValue | src/polyfills/quickjs/timer.c:72 | One more reference to a function is taken; none to an undefined value |
| Timers.TimerTable.FreeValue | src/polyfills/quickjs/timer.c:41 | One reference to a function is given back; none to an undefined value |
| Timers.TimerTable.SetTimeout | src/polyfills/quickjs/timer.c:64-88 | With a free slot, memory and a start the script gets a timer that is active, and no other timer becomes so; a reference is taken exactly when there is a free slot, only that slot changes, and each failure leaves what the code leaves |
| Timers.TimerTable.ClearTimeout | src/polyfills/quickjs/timer.c:91-100 | The timer is no longer active, and every other timer, the slots and the references are as before |
| Timers.TimerTable.Serve | src/polyfills/quickjs/timer.c:46-100 | A request of a script comes to the one call that it asks for: a timer is created exactly if there is memory and a free slot and started if the kernel lets it, an object that was given out is stopped, and one that names no timer is an error without effect |
| Timers.TimerTable.RunScript | src/polyfills/quickjs/timer.c:34 | All requests of a script are served, one call for each and in order, and the objects given out are those of the timers that were started |
| Timers.TimerTable.Fire | src/polyfills/quickjs/timer.c:24-44 | The callback takes one reference, makes exactly the calls that its script asks for, gives two references back, frees its slot and leaves its timer inactive, as the model has it |
| Timers.TimerTable.Poll | src/polyfills/quickjs/timer.c:148-159 | True exactly while a timer is still to fire |
| Timers.TimerTable.Close | src/polyfills/quickjs/timer.c:118-133 | Every timer is stopped and exactly the references in slots are given back, so that in the end those taken are those given back and those lost |

## Left out

- The parser, the URL splitter, the JavaScript engines, the FreeRTOS kernel and the operating system: their answers are arguments of the steps. The 404 decision of `src/httpd.c:191-192` is an arbitrary boolean, because it depends on how the URL splitter edits the path.
- A second message in one chunk.
- Httpd.Httpd.IoPoll: is only for inputs none of which has an error after a message that frees its connection, and so are Httpd.Httpd.Serve, Httpd.Httpd.Task and Httpd.Boot, because the invariant does not survive such a visit (ServerModel.NextExact). The condition is asked of every input, also of those at slots whose callback does not use it.
- ServerModel.CleanupAnyway: assumes of freed memory that it still holds what it held.
- The engine's answers of a round are for its drain and are not kept for the next one.
- `uv__queue_data` and the opaque pointers: a map from links to their containers stands for the pointer subtraction; that the embedding is one to one is part of the invariant.
- The watcher table is a sequence that is replaced on a change, so that the block itself may move is not captured; the poll array is a real array.
- Byte sizes of allocations other than that of the watcher table, and failed reallocation of tables, on which the code aborts.
- Event bits other than the four that the code names are lumped into one.
- In a stop, the table entry and the masks are cleared before the list is changed; the code has the reverse order, and the two parts are independent.
- The branch for requests that are too large (`src/httpd.c:241-247`) is modelled, but `recvd` is set to 0 and never advanced, so no bound on the size of a request follows.
- The test for a descriptor of -1 in the drain loop (`src/httpd.c:441-443`) is in the model's step but not in the method, where it is proved never to be true.
- `accept` returning a descriptor for which widening fails: 2^31 - 2 and, where sizes have 4 bytes, those from 2^29 - 2 on.
- Cleared slots stay: nothing calls the purge, so the used part of the poll array is not bounded by the number of live watchers. The purge's effect is proved.
- The build with OpenTelemetry, which closes descriptors that were never counted, and deinit of the server.
- The text of responses, and the memory of response headers and bodies.
- `yuarel` editing the path after the URL is complete, and the handing over of method, path and body to the engine.
- JerryScript's copy of the header walk, which is the same loop.
- Bytes after a buffer's terminator are always NUL in runs from cleared memory, so writes of the terminator change nothing; buffers filled in any other way are not considered.
- Concurrency of the timer task with the server task: a firing is one step that may contain calls of the script. A timer is not deleted after it has fired; the memory of timers is not counted.
- The arguments checks of `setTimeout` (`src/polyfills/quickjs/timer.c:52-62`), which come before any change.
- Logging, clocks, file system stubs, the loader and the Pico port.
