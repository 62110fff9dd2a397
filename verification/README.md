# Models and proofs of the thread pool, the locked list, the logger and its buffers

The project states, in Dafny, what four parts of the repository do, and proves what they promise of every run.

- **Message queue and thread pool** (`thrdpool/msgqueue.c`, `thrdpool/thrdpool.c`). `QueueMachine` and
  `PoolMachine` are step machines over any number of threads. One step is one lock, unlock, wait, signal or
  access to shared data. A wait releases its mutex in the same step in which it falls asleep, and may wake
  without a signal at any time. The pool contains the queue machine, so what is proved of the queue holds
  inside the pool. `QueueCells` has the queue as a class with real link cells, refining a sequence.
- **Hand-over-hand locked list** (`threadsafe_list.hpp`). `ListMachine` lets any number of `push_front`,
  `for_each`, `find_first_if` and `remove_if` run together. `ListNodes` has the loops as methods on real nodes. Line 32
  reads `current->next()`; it is taken as `current->next`, as on lines 44 and 58.
- **Logger pipeline** (`netbridge/Logger.cc`). `LogFraming` has the record format, the parsing loop and their
  round trip. `LogMachine` has any number of threads in `Flush`, `CreateLog` and `Stop` beside one `Run` thread,
  over the real bytes of the buffers.
- **Byte buffer and chunk list** (`netbridge/Buffer.cc`, `netbridge/Buffer.h`). Classes over arrays, with the
  capacity arithmetic (64 bits, no wrap) in `Capacity`.

How the concurrent proofs are built: a thread's next instruction is a function `Exec` of the shared state and its
own counter. For each instruction, one lemma shows that it re-establishes what its thread knows and only does
what the other threads allow for; a second lemma shows that this leaves alone what they know. History (the
messages put, the tasks started, the threads joined, the nodes visited) is kept in fields no instruction reads;
`PoolRuns`, `ListPushes`, `ListCalls` and `LogCalls` tie it to the calls made and the places reached in the run itself.
Lemmas over runs take the sequence of states and actions; lemmas over a state take the invariant, which holds in
every state of every run (`QueueInv.Reachable`, `PoolSafety.Reachable`, `ListTheorems.Reachable`,
`LogTheorems.Reachable`).

What is required of the callers:

- queue: a message is not put again before it came out, and the queue outlives its users;
- pool: it is created with at least one thread; destroy is called once; `thrdpool_schedule` and
  `thrdpool_increase` from outside the pool have returned before destroy is called; running tasks may call both at
  any time, except the destroyer's own after its destroy began. Each scheduled task has a name of its own, also when
  its entry reuses the memory of one that was freed: nobody accesses the link of a message that is neither queued nor
  being put (`QueueSpec.CellsInRuns`), what it contains makes no difference (`QueueSpec.StaleLink`), and the next put
  clears it, so giving the memory a new name at each allocation changes nothing else;
- list: callbacks neither change the data nor re-enter the list;
- logger: `Start` has been called once, records are not empty, and no buffer comes near 2^63 bytes;
- buffer: an array passed in is not the buffer's own, and is not so long that its length and the readable bytes, or an
  offset to peek at, add up to 2^64.

Findings, each stated by a member below:

- `LogManager::Stop` sets `shutdown_`, then locks `logsMutex_` to shut the loggers down. It shuts a logger down if and
  only if `Run` has not finished when it gets that mutex (`LogOutcome.ShutDownIff`): a `Run` that has finished has
  dropped every logger, and the loop finds none. Such a logger goes on accepting records that nobody writes;
  `LogDropped.NeverShutDown` is a run with any record one likes. A logger has written all it was ever given if and only
  if it was given no record after the drain's last scan of its buffers (`LogOutcome.AllWrittenIff`). What Flush
  was called with and had ended before Stop began is written in any case (`LogCalls.StopWritesCalls`).
- A moved-from `Buffer` is a usable buffer if and only if it had no array or one of more than 8 KiB; otherwise it
  keeps its capacity without an array (`ByteBuffer.Buffer.Moved`).
- An offset so large that the sum of `netbridge/Buffer.cc` line 39 wraps is refused by `PushDataAt` only if the wrapped
  sum is at the limit or above. Otherwise it counts back from the end of the readable bytes and replaces some of them, if
  and only if the bytes reach over that end, what lies behind it fits, and they do not begin before the array; else the
  call fails (`Capacity.WrappedTarget`).

## Model

| member | source | states |
|---|---|---|
| QueueInv.PutKeeps | thrdpool/msgqueue.c:86-100 | every instruction of a put keeps what its thread knows, the counters and the contents, and changes nothing other threads rely on |
| QueueInv.SwapKeeps | thrdpool/msgqueue.c:65-84 | the same for the exchange of the lists, with get_head equal to put_head on the way |
| QueueInv.GetKeeps | thrdpool/msgqueue.c:102-120 | the same for a get; the null link read at line 107 tells exactly whether the get list is empty |
| QueueInv.ModeKeeps | thrdpool/msgqueue.c:51-63 | the same for set_nonblock and set_block |
| QueueInv.ListsKept | thrdpool/msgqueue.c:65-120 | the links from the two head cells spell exactly the two lists, disjoint and without repetition, after every instruction |
| QueueInv.GetWakeKept | thrdpool/msgqueue.c:51-58 | a consumer asleep and unnotified on get_cond means an empty queue or a signal on its way, kept by every instruction |
| QueueInv.PutWakeKept | thrdpool/msgqueue.c:76-99 | a producer asleep and unnotified on put_cond means a full put list, kept by every instruction |
| QueueInv.Reachable | thrdpool/msgqueue.c:51-120 | the invariant of the queue holds in every state of every run |
| QueueSpec.RunRefines | thrdpool/msgqueue.c:65-120 | an instruction is invisible, or the instant at which the operation of its thread takes effect on a plain sequence; a get answers NULL only at an instant when the queue is empty and nonblocking |
| QueueSpec.Linearizable | thrdpool/msgqueue.c:65-120 | every run, with its calls and answers, is a run of an atomic FIFO queue |
| QueueSpec.Fifo | thrdpool/msgqueue.c:86-120 | the messages put are those got followed by those in the queue, in order |
| QueueSpec.ContentsInRuns | thrdpool/msgqueue.c:65-97 | in every run, whatever chains the links from get_head and put_head spell, their concatenation is the abstract queue, counted once while the heads alias, and put_tail is the put head cell or the link of its last message, never that of a message already handed out |
| QueueSpec.CellsInRuns | thrdpool/msgqueue.c:67-110 | in every run, two threads never access one link cell at the same time, nor one that a new put clears |
| QueueSpec.StaleLink | thrdpool/msgqueue.c:86-110 | what the link of a message contains that is neither queued nor being put makes no difference to any instruction |
| QueueSpec.NeverStuck | thrdpool/msgqueue.c:51-120 | in every run, while an operation is open some thread can go on, or the mode is blocking and it waits for room, for a message, or behind the consumer that does |
| QueueRank.ExecLowers | thrdpool/msgqueue.c:51-120 | with nonblock set, every instruction brings its operation closer to its end |
| QueueRank.NonblockEnds | thrdpool/msgqueue.c:51-83 | in every run, while nonblock is set and no call starts, at most as many instructions are executed as the rank of the open operations says, and when none can be all of them have their answer: the one signal of set_nonblock releases any number of consumers |
| QueueRank.OperationBound | thrdpool/msgqueue.c:51-120 | in either mode and in every run, an operation executes at most the instructions it has left and three more for each time it is sent to sleep, and that happens only when there is no message, or no room |
| QueueSpec.NoLostWakeup | thrdpool/msgqueue.c:51-118 | the three wakeup conditions and the single sleeper, in every state of every run |
| QueueBound.PendingBound | thrdpool/msgqueue.h:31-33 | with maxlen at least 1 and nonblock never set, at most 2*maxlen messages are pending, and 2*maxlen-1 while get_mutex is free |
| QueueBound.BoundReached | thrdpool/msgqueue.h:31-33 | for every maxlen there is a run that reaches 2*maxlen |
| QueueCells.MsgQueue.constructor | thrdpool/msgqueue.c:142-150 | a new queue is empty, blocking, and owns its cells |
| QueueCells.MsgQueue.SetNonblock | thrdpool/msgqueue.c:51-58 | the mode is nonblocking, the rest as before |
| QueueCells.MsgQueue.Put | thrdpool/msgqueue.c:86-97 | on real cells, put appends to the sequence, or puts the caller to sleep with the queue as it was, exactly when the put list is full in blocking mode |
| QueueCells.MsgQueue.Swap | thrdpool/msgqueue.c:67-83 | on real cells, the put list becomes the get list, the sequence stays, and its length is returned; or the caller sleeps with the two heads equal, exactly when there is nothing to take in blocking mode |
| QueueCells.MsgQueue.Pop | thrdpool/msgqueue.c:109-110 | on real cells, the first message is unhooked |
| QueueCells.MsgQueue.Get | thrdpool/msgqueue.c:102-120 | the first message, which leaves; on an empty queue NULL in nonblocking mode, and sleep in blocking mode |
| PoolInv.CreateKeeps | thrdpool/thrdpool.c:103-209 | creating threads, increase and schedule keep what the thread and the others know |
| PoolInv.DestroyKeeps | thrdpool/thrdpool.c:82-238 | so does every instruction of terminate and destroy, and the last one frees the pool for a caller outside it |
| PoolInv.WorkKeeps | thrdpool/thrdpool.c:43-80 | so does every instruction of a worker; from line 58 it goes into the task it has fetched, and line 63 frees the pool |
| PoolCount.CountKept | thrdpool/thrdpool.c:69-119 | nthreads stays the number of counted workers that have not left, less a destroyer inside the pool |
| PoolJoin.LeaveKeeps | thrdpool/thrdpool.c:69-75 | a leaving worker goes to the end of the chain of joins and remembers the one before it |
| PoolJoin.JoinKeeps | thrdpool/thrdpool.c:76-79 | its join joins exactly that one, not itself and not one joined before |
| PoolJoin.FinalKeeps | thrdpool/thrdpool.c:98-100 | the terminator's join completes the chain |
| PoolSafety.Reachable | thrdpool/thrdpool.c:43-238 | the invariant of the pool and of the queue inside it holds in every state of every run |
| PoolRoles.RolesReached | thrdpool/thrdpool.c:113-199 | the threads created by pthread_create are exactly those that run or ran __thrdpool_routine |
| PoolTheorems.TerminateJoinsAll | thrdpool/thrdpool.c:68-101 | when terminate returns every worker ever created, but a destroyer inside the pool, has returned and was joined once, nothing else was joined, and threads outside are idle |
| PoolTheorems.JoinsOnce | thrdpool/thrdpool.c:76-100 | in every run, what a thread joins or waits to join is a worker that left, is not itself, and was not joined before |
| PoolTheorems.NoUseAfterFree | thrdpool/thrdpool.c:61-237 | once the pool is freed, no thread touches it, frees it or may call into it |
| PoolTheorems.FreedByOne | thrdpool/thrdpool.c:61-237 | who is about to free the pool is the destroyer, finds it unfreed, frees it, and every other thread is through with it |
| PoolEnd.FreedIff | thrdpool/thrdpool.c:61-237 | in every state, the pool has been freed if and only if destroy is through and its caller is outside the pool or has returned from its routine |
| PoolTheorems.UnlockedTest | thrdpool/thrdpool.c:61-65 | the unlocked test finds zero if and only if the thread itself destroyed the pool |
| PoolTheorems.ThreadCount | thrdpool/thrdpool.c:72-119 | nthreads is the size of the set of counted workers, in every state |
| PoolTheorems.SignalFindsTerminator | thrdpool/thrdpool.c:69-98 | a worker that signals pool->terminate finds it set and its owner still waiting in the frame that holds it |
| PoolEnd.LastSignals | thrdpool/thrdpool.c:69-75 | a worker that signals is the last: nthreads is zero |
| PoolCreate.AllCreated | thrdpool/thrdpool.c:113-201 | in every state after thrdpool_create returned a pool, it has made as many workers as were asked for and one more for each increase whose pthread_create succeeded |
| PoolCreate.CreatedUnlessFailed | thrdpool/thrdpool.c:113-130 | when the creator is through with its loop the pool is published, unless a pthread_create failed while threads were missing |
| PoolCreate.FailsOnlyIf | thrdpool/thrdpool.c:113-126 | a pool is taken down unpublished only after such a failure |
| PoolCreate.CreationEnds | thrdpool/thrdpool.c:113-122 | the creator takes at most two steps for each thread and one more |
| PoolCreate.ScheduleNeverSleeps | thrdpool/thrdpool.c:140-184 | while fewer than SIZE_MAX tasks are on the put list, no thrdpool_schedule sleeps for room or is about to |
| PoolRuns.StartedIffRan | thrdpool/thrdpool.c:52-59 | in every state, the tasks recorded as started are exactly those that some worker is or was inside |
| PoolRuns.EnteredOnce | thrdpool/thrdpool.c:52-59 | no task is entered twice, by one thread or by two |
| PoolRuns.TaskPlaces | thrdpool/thrdpool.c:51-231 | in every state, scheduled = queued + fetched + run + drained, each task in one place once |
| PoolRuns.NoNewTask | thrdpool/thrdpool.c:51-66 | once terminate is set, a thread that is not just fetching a task, and a new thread, never begins another |
| PoolDrain.ReachesEmptied | thrdpool/thrdpool.c:221-233 | when the drain loop has ended the queue is empty, also when other tasks scheduled during destruction |
| PoolDrain.GivenAreCalled | thrdpool/thrdpool.c:170-184 | in every state, the tasks that are or were in the queue or about to be appended are exactly those for which thrdpool_schedule was called |
| PoolRuns.StartedReturn | thrdpool/thrdpool.c:59-101 | when terminate has returned, every task that was run has returned, but for the one that is destroying the pool |
| PoolRuns.EveryTaskRan | thrdpool/thrdpool.c:217-238 | when destroy returns a task was scheduled by call if and only if a worker ran it or it was drained, none had both, and what was run has returned, but for the destroyer's own task |
| PoolEnd.PendingInOrder | thrdpool/thrdpool.c:222-231 | the tasks drained are the last that were queued, in the order of the queue |
| PoolProgress.TaskGoesOn | thrdpool/thrdpool.c:51-66 | before destroy, while a task is queued and some worker is not inside a task, the pool or the queue can execute an instruction, whether or not any task returns |
| PoolProgress.NoDeadlock | thrdpool/thrdpool.c:82-238 | from the start of destroy to its return some thread can always go on, provided tasks return |
| PoolRank.RankLowers | thrdpool/thrdpool.c:43-238 | with nonblock set, every instruction of the pool or the queue and every return of a task lowers the rank; a call by a task or a spurious wakeup of the terminator adds a fixed amount |
| PoolRank.DestroyEnds | thrdpool/thrdpool.c:82-238 | from the write of nonblock on, the instructions executed are bounded by the rank and what later calls and spurious wakeups add, and until destroy returns some thread can execute one: so it returns under any scheduling |
| ListInv.PushShape | threadsafe_list.hpp:23-28 | a push puts one new node with the value right after the head, before the old first one, and keeps the next pointers leading from each node of the list to the one right after it |
| ListInv.UnlinkShape | threadsafe_list.hpp:61-62 | so does splicing a node out |
| ListInv.ShapeKept | threadsafe_list.hpp:23-70 | so does every step of every operation |
| ListTheorems.Reachable | threadsafe_list.hpp:23-70 | the invariant of the list holds in every state of every run |
| ListTheorems.LocksAdjacent | threadsafe_list.hpp:31-69 | a thread holds at most two locks, of adjacent nodes |
| ListTheorems.NoOvertaking | threadsafe_list.hpp:29-70 | a traversal that took the head lock later stays behind |
| ListTheorems.SafeUnlink | threadsafe_list.hpp:60-64 | nobody else holds or awaits the mutex of a node being unlinked and deleted |
| ListTheorems.VisitsAll | threadsafe_list.hpp:29-39 | a for_each or remove_if that has finished, and a find_first_if that found none, has visited, once and in order, every node present at its start, except those unlinked by one ahead of it |
| ListTheorems.RemoveIf | threadsafe_list.hpp:55-70 | nodes present at the start and at the end fail the predicate; nodes it unlinked satisfied it |
| ListTheorems.FindFirst | threadsafe_list.hpp:41-54 | the node found satisfies the predicate, and those before it that were present throughout fail it; none found, then all those present throughout fail it |
| ListTheorems.NoDeadlock | threadsafe_list.hpp:23-70 | while an operation is open some thread can go on, since wait-for edges point forward |
| ListPushes.PushMakesOne | threadsafe_list.hpp:23-28 | in every run, a call of push_front that has ended made one node, with its value, and that node then stood first in the list, the old nodes behind it |
| ListPushes.NodeFromPush | threadsafe_list.hpp:23-28 | every node was made by such a call and holds the value of that call ever since |
| ListPushes.NodesInRuns | threadsafe_list.hpp:23-64 | in every state, each node made is in the list or was cut out, and not both; in memory are those in the list and those cut and not yet deleted |
| ListCalls.CallsAll | threadsafe_list.hpp:29-70 | a finished traversal has called its function or predicate on the nodes it tested, each once and in that order |
| ListCalls.WalkBound | threadsafe_list.hpp:29-70 | a traversal takes at most six steps for each node that was in the list when it took the head lock, and three more |
| ListNodes.KeptHas | threadsafe_list.hpp:55-70 | what removal keeps is exactly the nodes that fail the predicate |
| ListNodes.KeptConcat | threadsafe_list.hpp:55-70 | removal node by node is removal from the whole, in order |
| ListNodes.List.PushFront | threadsafe_list.hpp:23-28 | on real nodes, a new node in front of the others |
| ListNodes.List.ForEach | threadsafe_list.hpp:29-39 | on real nodes, each datum once and in order |
| ListNodes.List.FindFirstIf | threadsafe_list.hpp:41-54 | on real nodes, the first that satisfies the predicate, or null when none does |
| ListNodes.List.RemoveIf | threadsafe_list.hpp:55-70 | on real nodes, exactly those that fail the predicate stay, the same nodes in the same order |
| LogFraming.Log | netbridge/Logger.cc:448-465 | the parsing loop writes and consumes what the specification Parse says, or stops at an assert or a read outside the buffer where it does |
| LogFraming.RoundTrip | netbridge/Logger.cc:204-209 | parsing what was framed gives back exactly the records and consumes every byte |
| LogFraming.PrefixRecords | netbridge/Logger.cc:448-465 | parsing any prefix of a stream gives exactly the records wholly inside it |
| LogFraming.ParseSound | netbridge/Logger.cc:451-464 | whatever is taken for records is byte for byte their framing, for any bytes |
| LogFraming.ParseTells | netbridge/Logger.cc:448-468 | for any bytes: which records are taken, where the loop ends, and when it stops at the assert of line 468 or reads outside the buffer, with the sums of size_t |
| LogFraming.EncodeLayout | netbridge/Logger.cc:204-209 | the bytes of one record: four for the level and eight for the length, little-endian, then the text |
| LogFraming.ConsumesAllIff | netbridge/Logger.cc:434-435 | all bytes are consumed if and only if they are the framing of the records written |
| LogInv.PushedHolds | netbridge/Logger.cc:204-209 | after each of the three pushes the buffer holds whole records and the pieces pushed |
| LogInv.TakenParses | netbridge/Logger.cc:431-435 | a buffer that Update took parses back to the records put into it |
| LogProof.EnterKeeps | netbridge/Logger.cc:188-202 | a Flush is refused exactly by a Logger that is shut down; else it finds its thread's buffer not in use and goes on with that buffer in use and its record |
| LogProof.TakeKeeps | netbridge/Logger.cc:415-429 | taking a buffer not in use leaves every writer its own |
| LogStop.ScanKeeps | netbridge/Logger.cc:413-429 | a scan that found nothing in use leaves no buffer behind |
| LogStop.WriteControls | netbridge/Logger.cc:431-440 | writing a buffer and returning from Update keep that every Logger dropped in the drain has written all it was given before Stop |
| LogTheorems.Reachable | netbridge/Logger.cc:188-633 | the invariant of the pipeline holds in every state of every run |
| LogCalls.GivenAreCalled | netbridge/Logger.cc:188-209 | in every run, the calls of Flush come to line 191 in their order, and what a thread gave to a Logger is, in that order, exactly the records of those that were not refused; refused is who finds the Logger shut down |
| LogCalls.NoneRefused | netbridge/Logger.cc:188-194 | before a Stop has locked logsMutex_ no Flush is refused |
| LogCalls.CallsConserved | netbridge/Logger.cc:188-441 | for each thread and Logger, the records of the calls not refused = written ++ held by Update ++ in its buffer ++ being pushed, in order |
| LogCalls.LoggersCreated | netbridge/Logger.cc:562-580 | the Loggers are exactly those for which CreateLog was called before Stop began |
| LogTheorems.UpdateTakesNoneInUse | netbridge/Logger.cc:200-218 | the buffer a thread writes is in memory, still its own entry, and not among those taken |
| LogTheorems.AssertsHold | netbridge/Logger.cc:200-468 | the asserts of lines 200, 435 and 468 hold in every run |
| LogCalls.StopWritesCalls | netbridge/Logger.cc:539-633 | the records of all calls of Flush that had ended before Stop began are in the file when Stop has returned, in the order of the calls |
| LogCalls.CallsWritten | netbridge/Logger.cc:188-633 | when Stop has returned, and Run had not finished as Stop locked logsMutex_, the file has of each thread exactly the records of its calls that were not refused, each once and in order |
| LogOutcome.ShutDownIff | netbridge/Logger.cc:539-558 | when Stop has returned, a Logger is shut down if and only if Run had not finished when Stop locked logsMutex_ |
| LogOutcome.StopLocked | netbridge/Logger.cc:550-554 | a Stop that returned after setting shutdown_ did lock logsMutex_ before |
| LogOutcome.AllWrittenIff | netbridge/Logger.cc:410-633 | when Stop has returned, a Logger has written all it was ever given if and only if it was given nothing after the last scan by the drain |
| LogOutcome.AllWritten | netbridge/Logger.cc:550-633 | when Run had not finished as Stop locked logsMutex_, all that was ever accepted is written |
| LogOutcome.LateRecordLost | netbridge/Logger.cc:188-219 | a record accepted once the drain is through with its Logger is never written, and the Logger was not shut down |
| LogTheorems.RunProgress | netbridge/Logger.cc:593-633 | until Run ends, it or the thread that shuts the Loggers down can go on |
| LogDrain.RunEnds | netbridge/Logger.cc:593-633 | once shutdown_ is set, and while no buffer is in use, the steps that Run takes are bounded by the rank, and until it has finished somebody can go on: so the drain ends |
| LogDrain.StopBound | netbridge/Logger.cc:551-557 | from line 551 on Stop itself takes at most one step for each Logger and three more |
| LogRounds.UpdateWrites | netbridge/Logger.cc:410-441 | when an Update returns, all that a thread gave to the Logger is written, if that thread was in no Flush of it meanwhile |
| LogRounds.RoundUpdates | netbridge/Logger.cc:593-620 | before Run waits again or goes on to the drain it has updated every busy Logger, or every Logger if none was busy |
| LogRounds.BigBufferNoted | netbridge/Logger.cc:213-215 | after a Flush that leaves more than 2 MiB its Logger is busy, or about to be, until Run wakes up for it or shutdown_ is set |
| LogRounds.BusyOnlyFilled | netbridge/Logger.cc:213-218 | a Logger is busy only after such a Flush |
| LogDropped.NeverShutDown | netbridge/Logger.cc:544-554 | a run in which Stop returns with the Logger not shut down, and any record given to it afterwards is accepted and not written |
| Capacity.TopValue | netbridge/Buffer.cc:20-21 | kMaxBufferSize is 2^63 - 1 |
| Capacity.RoundUpIs | netbridge/Buffer.cc:9-18 | the rounding gives the one power of two from the size to below twice it |
| Capacity.NextCapIs | netbridge/Buffer.cc:86-97 | from 256 on growth is by 3/2 from a power of two and by 4/3 to one, within 2^63 |
| Capacity.GrowTo | netbridge/Buffer.cc:85-98 | growth ends at a capacity on the grid, large enough and at most 2^63 |
| Capacity.GrowIsFit | netbridge/Buffer.cc:85-98 | a buffer that has to grow gets the same capacity whatever capacity it had |
| Capacity.FitLeast | netbridge/Buffer.cc:85-98 | that is the least capacity on the grid from 256 on that is enough, at most 2^63, and past 256 below 1.5 times the bytes required |
| Capacity.Amortised | netbridge/Buffer.cc:78-114 | the sizes reached by pushes alone from empty cost less than 3.5 times the bytes pushed |
| ByteBuffer.RoundUp2Power | netbridge/Buffer.cc:9-18 | the loop computes the rounding without wrapping up to 2^63 |
| ByteBuffer.Buffer.Grow | netbridge/Buffer.cc:85-98 | the loop ends at the specified capacity, or reaches assert(false), exactly when more than 2^63 bytes are required |
| ByteBuffer.Buffer.AssureSpace | netbridge/Buffer.cc:78-114 | room for the bytes asked for, same contents; the capacity and the array stay when they suffice, with compaction or without, and else the capacity is the least on the grid; positions and cost as specified; it stops at assert(false) exactly when more than 2^63 bytes are required |
| Capacity.PlainTarget | netbridge/Buffer.cc:39-46 | when the sum of line 39 does not wrap and is below the limit, nothing fails and the bytes go to their offset behind the readable ones |
| Capacity.WrappedTarget | netbridge/Buffer.cc:39-46 | when it wraps, the offset counts back from the end, and the exact condition under which nothing fails |
| ByteBuffer.Buffer.PushDataAt | netbridge/Buffer.cc:34-48 | for any size and offset: which pushes are refused, which fail, and where the others put the bytes and what becomes of the contents, with the wrapping of 64 bits |
| ByteBuffer.Buffer.PushData | netbridge/Buffer.cc:25-32 | contents grow by exactly the bytes pushed, or by nothing |
| ByteBuffer.Buffer.Produce | netbridge/Buffer.h:36-38 | staged bytes become contents |
| ByteBuffer.Buffer.PeekDataAt | netbridge/Buffer.cc:65-76 | the bytes copied out are the contents from the offset, truncated at the end |
| ByteBuffer.Buffer.PopData | netbridge/Buffer.cc:50-55 | what is copied out followed by what is left is what was there |
| ByteBuffer.Buffer.Consume | netbridge/Buffer.cc:57-63 | the front is dropped, and an empty window starts over |
| ByteBuffer.Buffer.Shrink | netbridge/Buffer.cc:116-141 | contents stay; the new capacity in each of the four cases |
| ByteBuffer.Buffer.Swap | netbridge/Buffer.cc:145-150 | contents and arrays are exchanged |
| ByteBuffer.Buffer.Moved | netbridge/Buffer.cc:152-170 | contents and array are taken over; when what is left behind is a valid buffer, if and only if |
| ByteBuffer.Buffer.Holding | netbridge/Buffer.h:21-26 | a new buffer with the bytes as contents |
| ByteBuffer.PushAll | netbridge/Buffer.cc:25-114 | pushing any parts into a new Buffer gives their concatenation and relocates less than 3.5 times the bytes pushed |
| ChunkList.PushAppends | netbridge/Buffer.h:115-133 | on values, a push appends to the concatenation and all chunks but the last keep 1024 bytes |
| ChunkList.PushChunks | netbridge/Buffer.h:115-172 | on values, a push leaves every chunk of 1024 bytes or more as it is, and adds a chunk exactly when there is none or the last one has 1024 bytes or more |
| ChunkList.FewChunks | netbridge/Buffer.h:165-172 | there are at most totalBytes/1024 + 1 chunks |
| ChunkList.RunConserves | netbridge/Buffer.h:110-138 | after any operations, popped or cleared ++ still there = pushed |
| ChunkList.RunPacked | netbridge/Buffer.h:110-138 | after any operations there are few chunks |
| ChunkList.BufferVector.Merges | netbridge/Buffer.h:165-172 | merge exactly when there is a chunk and the last one has fewer than 1024 bytes |
| ChunkList.BufferVector.Push | netbridge/Buffer.h:125-133 | the chunks become those of the specification, those of 1024 bytes or more as they were, one more exactly when the last one is that long or there is none; totalBytes is their length; it stops at the assert of PushData exactly when a positive size comes with a null pointer or leaves no room below the limit |
| ChunkList.BufferVector.PushBuffer | netbridge/Buffer.h:115-123 | the same for a moved Buffer, which needs room only when it is merged: it is left as it was when its bytes are copied into a short last chunk, and otherwise its array is taken over |
| ChunkList.BufferVector.Pop | netbridge/Buffer.h:135-138 | the first chunk leaves, totalBytes with it |
| ChunkList.BufferVector.Clear | netbridge/Buffer.h:110-113 | no chunk is left |

## Left out

- The concurrent parts are step machines on values, since interleavings are the point; `QueueCells`, `ListNodes`, `LogFraming` and `ByteBuffer` have the loops and in-place updates in the source's own form, for one caller at a time.
- QueueCells.MsgQueue.Put: says when its caller goes to sleep and leaves it there, because one caller alone cannot be woken; waking is in `QueueMachine`. So do `Swap` and `Get`.
- `malloc`, mutex, condition and attribute failures, `errno`, and the queue after `msgqueue_destroy`; a failed `pthread_create` is modelled, up to its path into `__thrdpool_terminate`.
- A pool created with zero threads: a worker can then finish a task before line 199 counts it and take the free at line 63.
- The wrap of `msg_cnt`: messages are distinct objects in memory, so there are never 2^64 of them.
- Fairness and time: progress is stated as absence of deadlock, and from nonblocking mode on with a bound on the instructions left, for the queue and for destroy; for Run from `shutdown_` on while no Flush has a buffer in use; timed waits may end at any time.
- The memory orders of the hardware: accesses happen one after another, also the unlocked ones.
- `~threadsafe_list`: it calls `std::remove_if` with one argument, which is no operation of the list.
- LogCalls.GivenAreCalled: a Flush refused after `shutdown_` (lines 191-194) gives no record; what it prints on the console, and the missing reset there, are not modelled.
- Text formatting, levels, timestamps, thread ids, colours, file names, rotation and memory-mapped files: a record is opaque bytes and the sink a sequence.
- The order in which one Update visits the map of buffers: any order is allowed, so the theorems hold for the map's own.
- The null Logger and `LogManager::Start`: runs begin after Start, and a CreateLog refused by `shutdown_` changes nothing.
- ChunkList.BufferVector.Push: where the assert of netbridge/Buffer.cc line 29 fails the model stops; in a build without asserts totalBytes would count bytes that are not stored.
- ByteBuffer.Buffer.PushDataAt: bytes staged at an offset and not made readable at once are not preserved by a later relocation, as in the source.
- A moved-from Buffer is not used again, beyond what the move constructor says of it; `ReadAddr`, `WriteAddr` and the iterators give out pointers and are not modelled.
- `chapter11/LSTTimer.h` (its sorted insertion is an empty stub), `slice.h`, sockets, epoll, signals, daemons, event loops and demonstrations.
