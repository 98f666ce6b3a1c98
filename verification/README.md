# Models and proofs for the process, signal, list and integration programs

Each program is modelled in the form its code has: code that changes arrays, nodes or fields in
place as methods and classes over the same state, and code whose difficulty is interleaving as
state machines in which one step is one system call of one process. A *run* is a sequence of
such steps, so a theorem about all runs is a theorem about every schedule, every answer of `read`
and `write`, and every point at which a process can stop.

`dafny verify dfyconfig.toml` checks everything.

## What is proved

**Shared-memory transfer** (`SemaphoreSet`, `Transfer`, `TransferInvariant`, `TransferSafety`,
`TransferLiveness`, `TransferDeadlock`, `TransferFaceOff`, `TransferReturns`, `HeadWrites`). Any
number of servers and clients, each of which may stop anywhere, share one buffer and five semaphores. `SemaphoreSet` interprets arrays of semaphore
operations as `semop` does: in order, all or nothing, with undo records and `IPC_NOWAIT`. One
inductive invariant gives: one token for the buffer, semaphores that count their live undo
records, chunks taken once and in order over the lifetime of one server, and success only after
every byte was written. With any number of processes, none can take a step exactly in four
standstills: there is no server and no client has entered, a server waits and there is no client, a
client was left behind in `waitForServer`, or server and client wait for each other because the
token was dropped (the exact steps that drop it are stated). The first two end when a server or a
client arrives; the last two last until a process inside the block is killed, whoever else comes
and goes, and a run into each is given. For one server and one client that are not killed:
the pair can get stuck exactly when the server's first read delivers no byte, be it the end of an
empty file or a failure; every run ends within a linear bound; and a run without failures delivers
the file. The inner write loop starts again at the head of the buffer after a short write; it
delivers the chunk exactly when the first write that takes anything takes all of it.

**Signal transfer** (`SignalBits`, `SignalHandlers`, `SignalTransfer`, `SignalInvariant`,
`SignalSafety`, `SignalLiveness`). Parent and child move a file one bit per signal. Pending
signals form a set (section 2.4.1 of POSIX.1-2017 System Interfaces), so a signal sent while it is
pending would be lost, and handlers are swapped at run time. The invariant is a single right to
send the next signal that passes between the two. From it: nothing coalesces, every signal finds
the handler and the bit index it was meant for, the output is always a prefix of the file, no run
gets stuck even when either process is killed, and every run ends within a linear bound.

**Work partitioning** (`Arithmetic`, `Trapezoid`, `WorkDistribution`, `ThreadWork`,
`ThreadPlacement`, `Schedule`, `Responses`, `Exactness`), over exact reals. Splitting an integral among machines by throughput,
each machine splitting its piece among threads by processor weight, computing every part and adding up gives
the one-machine trapezoid sum, short of the last steps of each piece that rounding down dropped:
fewer on each machine than it has threads. It is the one-machine sum of every integrand exactly
when the interval is empty or the steps of every core in use split evenly among its threads, a
divisibility condition on whole numbers; one step on two threads of one core is lost. Threads and
workers finish in any order.

**Linked list** (`LinkedList`). Nodes, sentinel and iterators on the heap, with an allocator that
may refuse. Any sequence of operations refines the same operations on a plain sequence, and takes
and gives back exactly its own blocks.

**Token chain** (`TokenChain`). Children print their numbers in order for every interleaving and
every point at which `fork` fails; the chain never gets stuck before the parent returns.

**Relay** (`PipelineBuffers`, `Relay`). The poll loop with state encoded in descriptor signs,
byte counts conserved, contents exactly when writes are whole; the buffer sizes although their
powers of three wrap around; the carving of one allocation.

## Model

| member | source | states |
|---|---|---|
| SemaphoreSet.GateIsTestForOne | semaphores/common.c:254-269 | the -1, 0, +1 operations, at any place of any array, succeed exactly when the semaphore is one and then change no value and no undo record; otherwise they fail as their flags say |
| SemaphoreSet.SemopConserves | semaphores/common.c:100-204 | for every array that succeeds, value and undo record together change exactly by the operations without SEM_UNDO, and no value becomes negative |
| SemaphoreSet.UndoAtExit | semaphores/common.c:111-148 | at exit every semaphore moves by its undo record, but not below zero |
| SemaphoreSet.ExitRestores | semaphores/common.c:111-148 | what an array did with SEM_UNDO only is undone by the exit |
| SemaphoreSet.AcquireArrays | semaphores/common.c:100-205 | exactly when the acquire calls of server and client succeed, and the one value and the one undo record each changes |
| SemaphoreSet.WaitArrays | semaphores/common.c:207-241 | waitForClient and waitForServer wait for a one and change nothing |
| SemaphoreSet.LoopGates | semaphores/common.c:254-344 | the loop gates report a missing peer with EAGAIN, otherwise wait for EMPTY or FULL and take one from it |
| SemaphoreSet.PostArrays | semaphores/common.c:296-380 | posting FULL or EMPTY always succeeds, without an undo record |
| TransferInvariant.ServerMoveKeeps | semaphores/common.c:243-312 | every call of a server, from acquisition to return, keeps the invariant on semaphores, undo records, token and contents |
| TransferInvariant.ClientMoveKeeps | semaphores/common.c:314-387 | the same for every call of a client |
| TransferInvariant.ExitKeeps | semaphores/common.c:109-154 | a process that stops anywhere gives back what its undo records say, and the invariant survives |
| TransferInvariant.StepKeepsInv | semaphores/common.c:100-387 | every action of any of the processes keeps the invariant |
| TransferInvariant.RunKeepsInv | semaphores/common.c:100-387 | every state reachable from zeroed semaphores satisfies the invariant |
| TransferSafety.OneToken | semaphores/common.c:123-386 | FULL + EMPTY + servers between EMPTY-1 and FULL+1 + clients between FULL-1 and EMPTY+1 is at most one, also across crashes and a new server's SETVAL |
| TransferSafety.NoReadDuringWrite | semaphores/common.c:287-373 | a server that may fill the buffer and a client that may read it never coexist |
| TransferSafety.UndoRecordsCount | semaphores/common.c:101-150 | SERVER, CLIENT and INIT equal the number of live processes with an undo on them, are at most one, INIT implies SERVER; nobody holds an undo on FULL or EMPTY |
| TransferSafety.ResetOnlyBeforeClients | semaphores/common.c:123-140 | FULL and EMPTY are set outright only while no live client is past waitForServer |
| TransferSafety.BlockHoldsOnePair | semaphores/common.c:100-205 | at most one live server and one live client are past their acquire call |
| TransferSafety.ChunksTakenOnceInOrder | semaphores/common.c:252-386 | in one server's lifetime the i-th announcement is consumed at most once, with the i-th chunk in the buffer, by whatever client; at most the last one taken is not given back; the chunks are the file as far as it was read |
| TransferSafety.OutputIsPrefix | semaphores/common.c:358-386 | with whole writes every chunk but the last taken is written exactly once and the last at most once; the output is a prefix of the file |
| TransferSafety.ServerSuccessMeansWritten | semaphores/common.c:307-310 | a server that returns 0 has had all of its file written (whole writes) |
| TransferSafety.ClientSuccessMeansWritten | semaphores/common.c:370-373 | when a client returns 0 the whole file has been written (whole writes) |
| TransferSafety.WholeWritesAreNotShort | semaphores/common.c:361-369 | the condition "no short write" of the content theorems means exactly that no write of the run took a part that is neither nothing nor all |
| TransferReturns.ClientReturns | semaphores/common.c:314-387 | a client ends exactly on a missing server, a failed write or the zero-size chunk, with 0 for the last and -1 otherwise |
| TransferReturns.ServerReturns | semaphores/common.c:243-312 | a server ends exactly on a missing client, a failed read or a posted zero-size chunk, with 0 for the last and -1 otherwise |
| TransferReturns.ServerReads | semaphores/common.c:288-293 | a read can deliver any part of the rest of the file up to the buffer size, nothing exactly at the end, and the buffer then holds those bytes |
| TransferReturns.ChunkWrites | semaphores/common.c:360-381 | for all answers of write, short and failing ones included: a client's moves over one chunk add what the head-first loop emits, and it gives the chunk back exactly when that loop completes |
| TransferLiveness.EveryRunEnds | semaphores/common.c:243-387 | an unkilled pair, from zeroed semaphores, makes at most 10 * size + 42 steps, whatever reads and writes answer as long as no write answers zero |
| TransferLiveness.OnlyStrandedIsStuck | semaphores/common.c:225-241 | the only stuck states are those of a client that waits for a server which has finished |
| TransferLiveness.StuckIffFirstReadEmpty | semaphores/common.c:225-387 | for every file and every answer of the first read: some run gets stuck if and only if that read delivers no byte (end of file or failure); later failures never stop the pair |
| TransferLiveness.StrandingRun | semaphores/common.c:225-291 | for each first read that delivers nothing, a concrete run that strands the client in waitForServer: an empty file, and a failing read of any file |
| TransferDeadlock.StillIffStandstill | semaphores/common.c:100-387 | in every reachable state, with any number of processes, none can take a step if and only if the state is one of the four standstills |
| TransferDeadlock.NewcomersHelp | semaphores/common.c:100-223 | a server that comes where there was none, or a client that comes to a server without one, can go on |
| TransferDeadlock.AbandonedForever | semaphores/common.c:100-241 | a client left in waitForServer holds CLIENT: until it is killed no later server or client ever enters, and nothing is transferred |
| TransferDeadlock.LostForever | semaphores/common.c:254-385 | once FULL, EMPTY and all processes are without the token, nothing is posted, taken or written until the server ends, whatever clients come and go; with both at their gates nothing moves |
| TransferDeadlock.LostIffDropped | semaphores/common.c:254-381 | after any step while a server past its set-up remains: the token is lost if and only if it was, or the step drops it: a client that dies, sees the end of the file or fails to write between FULL-1 and EMPTY+1, or a server that fails to read |
| TransferDeadlock.FaceOffIsLost | semaphores/common.c:254-344 | server and client waiting for each other are without the token |
| TransferFaceOff.FaceOffHappens | semaphores/common.c:243-387 | a concrete run of a server and two clients, without a failing call, that ends with server and client waiting for each other |
| TransferLiveness.CleanRunsDeliver | semaphores/common.c:243-387 | when both processes of a run without failures and short writes are gone the file is written, also when the client saw the server gone instead of the end-of-file chunk |
| HeadWrites.WriteBuffer | semaphores/common.c:360-369 | the write loop: what it emits, that it finishes exactly when the answers account for the chunk without failure, and that it returns -1 only for a failure |
| HeadWrites.IntactIffWholeWrite | semaphores/common.c:361-369 | a finished loop delivers every possible chunk intact if and only if the first write that takes anything takes everything |
| HeadWrites.SplitWrite | semaphores/common.c:361-362 | after a first write of k bytes, fewer than all, byte k of the output is the first byte of the chunk again |
| SignalBits.PutBitAt | signals/signals.c:33-51 | a bit handler changes exactly the bit at active_bit |
| SignalBits.ReceiveNextBit | signals/signals.c:33-51 | receiving the next bit of a source extends the agreeing part by one bit |
| SignalBits.SameBitsSameBytes | signals/signals.c:225-227 | bytes all of whose bits agree are equal |
| SignalBits.ShortRoundTrip | signals/signals.c:133-244 | the size survives being sent and received as two bytes |
| SignalHandlers.ClientGlobals.RecieveWaitHandler | signals/signals.c:29-31 | sets server_ready and nothing else |
| SignalHandlers.ClientGlobals.Recieve0Handler | signals/signals.c:33-41 | clears the bit at active_bit in place, advances active_bit, sets server_ready |
| SignalHandlers.ClientGlobals.Recieve1Handler | signals/signals.c:43-51 | sets the bit at active_bit in place, advances active_bit, sets server_ready |
| SignalHandlers.ReceiveChunk | signals/signals.c:118-148 | the handlers, run for the bits of n bytes in order, overwrite exactly the first n bytes of a reused buffer with them |
| SignalInvariant.StepKeeps | signals/signals.c:89-280 | every step of either process, every delivery of a signal and every crash keeps the invariant |
| SignalInvariant.RunKeeps | signals/signals.c:89-280 | every reachable state satisfies the invariant |
| SignalInvariant.SendsOnRequest | signals/signals.c:118-131 | the server sends a bit only while the client waits for exactly that bit with nothing pending |
| SignalSafety.OutputIsPrefix | signals/signals.c:150-185 | the output is always a prefix of the file, and the whole file once the client handles the zero-size chunk or returns 0 |
| SignalSafety.NoSignalCoalesces | signals/signals.c:118-277 | no signal is sent while one is pending at its target |
| SignalSafety.HandlersFitSignals | signals/signals.c:63-87 | a "ready" signal runs recieveWaitHandler; a data signal runs the handler of its bit while active_bit equals the index the server sent; requests run sendWaitHandler |
| SignalSafety.HandlersStayInBounds | signals/signals.c:33-51 | a delivered signal never writes outside the array and never meets its default action, also after the server has died |
| SignalSafety.ConfirmedChunkIsExact | signals/signals.c:159-171 | when the client confirms a chunk, size and bytes equal the server's part of the file |
| SignalSafety.ClientExits | signals/signals.c:150-185 | the client ends by its own step exactly when the server is gone at a signal, a write fails or the zero-size chunk is written, with 0 for the last and -1 otherwise |
| SignalSafety.ServerExits | signals/signals.c:254-280 | the server ends by its own step exactly when the client is gone at a signal, a read fails or the zero-size chunk is confirmed, with 0 for the last and -1 otherwise |
| SignalSafety.ServerReads | signals/signals.c:256-261 | a read can deliver any part of the rest of the file up to the buffer size, nothing exactly at the end, at the head of the buffer |
| SignalSafety.OtherExits | signals/signals.c:25-27 | no step of one process ends the other, and no other event ends a process with 0 |
| SignalLiveness.NeverStuck | signals/signals.c:89-254 | in every reachable state some step is possible if and only if not both processes have ended; crashes included |
| SignalLiveness.StepLeavesLess | signals/signals.c:118-277 | every step decreases a measure of unread bytes, remaining bits and phase |
| SignalLiveness.EveryRunEnds | signals/signals.c:150-280 | every run with progressing writes has at most 4000 * size + 3175 steps |
| SignalLiveness.CleanRunsDeliver | signals/signals.c:150-280 | without crashes and failing calls no process ends before the whole file is written |
| Trapezoid.TrapezoidIntegrate | parallelworkloads/TrapezoidIntegrator.hpp:6-19 | the loop that reuses function values computes the sum of n trapezoids of the even grid |
| Trapezoid.AtIs | parallelworkloads/TrapezoidIntegrator.hpp:9-13 | the grid point reached by repeated addition is a + i * h |
| Trapezoid.GridEnds | parallelworkloads/TrapezoidIntegrator.hpp:9-13 | the n-th grid point is the right end |
| Trapezoid.TrapSplit | parallelworkloads/TrapezoidIntegrator.hpp:7-19 | sums of consecutive pieces of one width add up |
| Trapezoid.PieceAddsUp | parallelworkloads/ScheduleTrapezoid.cpp:37-39 | a piece integrated on its own between its two ends is the matching range of the whole sum |
| WorkDistribution.Distribute | parallelworkloads/CPUTopology.cpp:84-91 | the lambda splits a thread count over hyperthreaded cores, other cores, second threads |
| ThreadPlacement.SplitPrefers | parallelworkloads/CPUTopology.cpp:71-91 | the split adds up to the threads and prefers hyperthreaded cores to other cores, and those to second threads |
| ThreadPlacement.ThreadsOfCores | parallelworkloads/CPUTopology.cpp:93-120 | hardware threads in that order: each gets one thread for every full round and one more if the last round reaches it |
| ThreadPlacement.SecondThreadsWeigh | parallelworkloads/CPUTopology.cpp:93-103 | a hyperthreaded core counts 1.3 exactly when its second thread is launched, and the total weight is that of the launched threads |
| ThreadPlacement.SmtEntry | parallelworkloads/CPUTopology.cpp:101-115 | the entry of each thread of a hyperthreaded core: its two processors and, in whole numbers, weight times work by total weight times the core's threads |
| ThreadPlacement.CoreEntry | parallelworkloads/CPUTopology.cpp:117-130 | the same for a thread of another core |
| ThreadPlacement.FirstThreads | parallelworkloads/CPUTopology.cpp:71-133 | with at most one thread for each core, thread k goes to hyperthreaded core k or, behind these, to the next other core, each with work / threads steps |
| WorkDistribution.EveryThreadHasAShare | parallelworkloads/CPUTopology.cpp:101-130 | for every topology with a hardware thread there is one share for each thread to launch: the early exits drop none |
| WorkDistribution.SharesAddUp | parallelworkloads/CPUTopology.cpp:93-130 | the shares before truncation add up to the work when a thread is launched |
| ThreadWork.DistributeWork | parallelworkloads/CPUTopology.cpp:72-133 | the two loops produce exactly launch entries, those of the plan |
| ThreadWork.EntriesAreShares | parallelworkloads/CPUTopology.cpp:105-127 | entry k holds share k rounded down |
| ThreadWork.SmtPlacement | parallelworkloads/CPUTopology.cpp:101-115 | every thread of a hyperthreaded core has its entry, with that core's two processors and its rounded share, behind the cores before it |
| ThreadWork.CorePlacement | parallelworkloads/CPUTopology.cpp:117-130 | the same for the other cores, behind all hyperthreaded ones |
| ThreadWork.Balanced | parallelworkloads/CPUTopology.cpp:95-120 | two cores of one kind differ by at most one thread, the earlier one having more |
| ThreadWork.StepsNearWork | parallelworkloads/CPUTopology.cpp:105-124 | the whole steps sum to at most the work, miss fewer than one for each thread, and miss none if and only if every share is whole |
| Schedule.Launch | parallelworkloads/ScheduleTrapezoid.cpp:24-43 | thread i gets the ends given by the steps handed out before it |
| Schedule.RunThreads | parallelworkloads/ScheduleTrapezoid.cpp:39-39 | threads finishing in any order leave each result in its own cell |
| Schedule.Join | parallelworkloads/ScheduleTrapezoid.cpp:53-59 | adding the results up stays in bounds and gives the sum over all steps handed out |
| Schedule.ScheduleIntegrate | parallelworkloads/ScheduleTrapezoid.cpp:11-60 | the result is the trapezoid sum of the first S of the n steps, S being the steps of all entries |
| Schedule.PiecesFollow | parallelworkloads/ScheduleTrapezoid.cpp:37-42 | a thread's right end is the next one's left end |
| Schedule.ScheduledPart | parallelworkloads/ScheduleTrapezoid.cpp:11-60 | n - threads < S <= n, and the one-machine sum is the scheduled one plus its last n - S trapezoids |
| Exactness.AllStepsIffEven | parallelworkloads/CPUTopology.cpp:93-130 | the threads do all of the work if and only if, for every core in use, its weight in tenths times the work is divisible by the total weight in tenths times its threads |
| Exactness.ScheduleExactIff | parallelworkloads/ScheduleTrapezoid.cpp:11-60 | scheduleIntegrate gives the one-machine sum of every integrand if and only if the interval is empty, there is no step, or there is a thread and the steps split evenly |
| Exactness.HalfStepsAreLost | parallelworkloads/ScheduleTrapezoid.cpp:11-60 | one step on two threads of one core: the result is zero instead of the trapezoid |
| Responses.NoUnderflow | parallelworkloads/network/NetworkClient.c:218-235 | the steps given out never exceed n, so n - used_n does not underflow |
| Responses.GivenInProportion | parallelworkloads/network/NetworkClient.c:218-230 | every worker but the last is asked for the whole steps of its part of the total throughput |
| Responses.LastInProportion | parallelworkloads/network/NetworkClient.c:231-241 | the last worker is asked for its part and fewer than one more step for each of the others |
| Responses.Schedule | parallelworkloads/network/NetworkClient.c:209-241 | every element of the array gets its connection's socket and its piece of the grid |
| Responses.CountsAddUp | parallelworkloads/network/NetworkClient.c:218-241 | the counts of all workers add up to n |
| Responses.PiecesTile | parallelworkloads/network/NetworkClient.c:215-241 | the pieces run from l to r without gap or overlap, each non-empty one with the common step width |
| Responses.Exchange | parallelworkloads/network/NetworkClient.c:182-199 | the exchanges, in any order, fill each element with its own worker's answer |
| Responses.FindFailure | parallelworkloads/network/NetworkClient.c:248-250 | the return code is the first nonzero one, or zero when there is none |
| Responses.AddUp | parallelworkloads/network/NetworkClient.c:252-257 | adds all values |
| Responses.GetResponses | parallelworkloads/network/NetworkClient.c:201-267 | return code and output for every set of answers and for a failed allocation; the output is untouched on failure |
| Responses.SplitComputesWhole | parallelworkloads/network/NetworkClient.c:209-256 | what the client adds up, together with what its workers left out of their pieces, is the one-machine sum |
| Responses.SplitIsExact | parallelworkloads/network/NetworkClient.c:209-256 | with workers that integrate all of their piece the client's sum is the one-machine sum |
| Responses.StepsDone | parallelworkloads/network/TrapezoidServer.cpp:59-72 | workers that use scheduleIntegrate do at most n steps together and miss fewer than they have threads, each fewer than its own |
| Responses.ScheduledSplit | parallelworkloads/network/TrapezoidServer.cpp:59-72 | end to end: split over machines, each split over threads, the sum misses exactly the last trapezoids of each piece |
| Exactness.ClientExactIff | parallelworkloads/network/NetworkClient.c:201-267 | with workers that use scheduleIntegrate the client gives the one-machine sum of every integrand if and only if the interval is empty or every worker's piece splits evenly on its machine |
| LinkedLists.Allocator.CreateNode | linkedlist/LinkedList.c:32-41 | a granted request yields a fresh live node, a refused one changes nothing |
| LinkedLists.Allocator.Free | linkedlist/LinkedList.c:43-45 | releases a block that is live, once |
| LinkedLists.LinkedList.Create | linkedlist/LinkedList.c:56-69 | an empty valid list and one block, or null and no block |
| LinkedLists.LinkedList.Begin | linkedlist/LinkedList.c:100-103 | the position of the first element, or the end |
| LinkedLists.LinkedList.IterNext | linkedlist/LinkedList.c:110-114 | the next position, from the end to the beginning |
| LinkedLists.LinkedList.IterPrev | linkedlist/LinkedList.c:116-120 | the position before, from the beginning to the end |
| LinkedLists.LinkedList.Front | linkedlist/LinkedList.c:90-93 | the first element of a non-empty list |
| LinkedLists.LinkedList.Back | linkedlist/LinkedList.c:95-98 | the last element of a non-empty list |
| LinkedLists.LinkedList.IsEmpty | linkedlist/LinkedList.c:128-131 | true exactly for the empty list |
| LinkedLists.LinkedList.Size | linkedlist/LinkedList.c:133-144 | terminates with the number of elements |
| LinkedLists.LinkedList.Insert | linkedlist/LinkedList.c:151-170 | insertion at the iterator's position, all other nodes keeping identity and order; a failed allocation leaves the list as it was |
| LinkedLists.LinkedList.Erase | linkedlist/LinkedList.c:172-183 | deletion at the iterator's position, the result being the iterator behind it; exactly that block is released |
| LinkedLists.LinkedList.Append | linkedlist/LinkedList.c:185-188 | adds at the end |
| LinkedLists.LinkedList.Prepend | linkedlist/LinkedList.c:195-198 | adds at the front |
| LinkedLists.LinkedList.PopBack | linkedlist/LinkedList.c:190-193 | removes the last element |
| LinkedLists.LinkedList.PopFront | linkedlist/LinkedList.c:200-203 | removes the first element |
| LinkedLists.LinkedList.DestroyNodes | linkedlist/LinkedList.c:71-81 | terminates, releasing every node once and reading none after its release |
| LinkedLists.LinkedList.Clear | linkedlist/LinkedList.c:146-149 | empties the list and releases its nodes |
| LinkedLists.LinkedList.Destroy | linkedlist/LinkedList.c:83-88 | gives back every block of the list, and nothing for null |
| LinkedLists.Apply | linkedlist/LinkedList.c:110-203 | any sequence of operations, refused allocations included, leaves the contents the same operations leave on a sequence |
| LinkedLists.BlockCount | linkedlist/LinkedList.c:32-69 | a live list holds 1 + length live blocks |
| TokenChain.PrintsInOrder | nprocesses/nprocesses.c:13-25 | in every state the output is 0, 1, 2, ... and the queue holds at most one message |
| TokenChain.ReturnMeansAllPrinted | nprocesses/nprocesses.c:26-36 | when the parent returns, exactly 0..last-1 were printed, all children are gone, the queue is empty, and the failure was reported exactly when some but not all children were forked |
| TokenChain.ForksAll | nprocesses/nprocesses.c:13-30 | while the parent forks no fork has failed; when it has left the loop, fewer than n children exist if and only if one has |
| TokenChain.AllPrintedUnlessForkFails | nprocesses/nprocesses.c:9-37 | when the parent returns and no fork failed, exactly 0..n-1 were printed and nothing is reported; otherwise fewer, reported if any child exists |
| TokenChain.TakesOldest | nprocesses/nprocesses.c:16-32 | msgrcv takes the oldest message of the type, keeps the others in order, and waits exactly when there is none |
| TokenChain.NeverStuck | nprocesses/nprocesses.c:13-32 | some process can step if and only if the parent has not returned |
| TokenChain.StepLeavesLess | nprocesses/nprocesses.c:13-36 | every step keeps the invariant and decreases the remaining work |
| TokenChain.EveryRunEnds | nprocesses/nprocesses.c:9-37 | at most 4n + 2 steps |
| PipelineBuffers.Pow3WrapsOdd | pipeline/pipeline.c:166-171 | powers of three stay odd, hence nonzero, when they wrap |
| PipelineBuffers.BufferSize | pipeline/pipeline.c:163-182 | between 1 and 2^17, and min(3^(n-i+4), 2^17) up to a distance of 36, although the 64-bit product wraps |
| PipelineBuffers.FillSizes | pipeline/pipeline.c:193-197 | the sizes, and their total without overflow |
| PipelineBuffers.AllocateBuffers | pipeline/pipeline.c:184-211 | slice i starts where the slices before it end |
| PipelineBuffers.SlicesPartition | pipeline/pipeline.c:202-206 | every byte of the allocation lies in exactly one slice |
| Relay.PassKeeps | pipeline/pipeline.c:284-350 | every pass over a slot, for all poll results, reads and writes, keeps: one side armed, write side armed exactly when bytes wait, bytes read = written + waiting; a closed slot is not touched again |
| Relay.PassFails | pipeline/pipeline.c:302-328 | main returns -1 after a pass exactly when a read or write that is due fails |
| Relay.PassFinishes | pipeline/pipeline.c:295-349 | otherwise a slot is finished exactly on an empty read, a hang-up with nothing to read, an error, or a write that takes nothing, on its armed side |
| Relay.PassReads | pipeline/pipeline.c:300-318 | a readable slot takes all the kernel gives up to its size, and changes sides |
| Relay.PassWrites | pipeline/pipeline.c:319-338 | a writable slot sends from the head of its buffer what the kernel takes of the bytes waiting, and changes sides when none is left |
| Relay.PassIdles | pipeline/pipeline.c:295-349 | any other pass moves no byte |
| Relay.WholeIff | pipeline/pipeline.c:321-331 | "whole writes" means that along the passes every write that took anything took all that was waiting |
| Relay.EndOfInputPassedOn | pipeline/pipeline.c:297-348 | over all passes, a slot closed at the end of its input has passed on every byte, and the same bytes with whole writes |
| Relay.WritesEmit | pipeline/pipeline.c:313-331 | a slot's writes emit what repeated writes from the head emit |
| Relay.RelayIntactIffWholeWrite | pipeline/pipeline.c:319-331 | a chunk passes on intact, whatever its bytes, if and only if the first write takes all of it |
| Relay.Relay.constructor | pipeline/pipeline.c:267-277 | at the start every read side is armed |
| Relay.Relay.ReadSide | pipeline/pipeline.c:300-318 | the read part in place on the arrays |
| Relay.Relay.WriteSide | pipeline/pipeline.c:319-338 | the write part in place on the arrays |
| Relay.Relay.CloseSlot | pipeline/pipeline.c:340-345 | both descriptors become positive and are closed |
| Relay.Relay.ProcessSlot | pipeline/pipeline.c:284-350 | one loop body changes slot i as a pass says, no other slot, and returns what main returns |
| Relay.Relay.Round | pipeline/pipeline.c:284-350 | one poll result: each slot has one pass, up to the first at which main returns: -1 if a call failed, 0 if the last slot is finished |
| Relay.Relay.PollLoop | pipeline/pipeline.c:278-351 | after any number of rounds every slot has seen its own events in order, and main has returned exactly at the first pass that ends it |

## Left out

- Transfer, SignalTransfer and TokenChain: the processes of `semaphores/common.c`, `signals/signals.c` and `nprocesses/nprocesses.c` are program counters over values instead of methods that update in place, because the subject is their interleaving; the parts that run without interleaving are methods (`HeadWrites.WriteBuffer`, `SignalHandlers`).
- Transfer: a call that fails for another reason than EAGAIN (a removed set, an interrupting signal), and SETVAL's clearing of undo records, which has no effect because no process ever has one on FULL or EMPTY (`TransferSafety.UndoRecordsCount`).
- TransferSafety.OutputIsPrefix: contents are stated for runs without short writes, since the write loop restarts at the head of the buffer; `HeadWrites.IntactIffWholeWrite` gives the exact condition for one chunk.
- TransferLiveness.EveryRunEnds: assumes that no write is answered with zero, after which the loop could go on for ever, and that the semaphores start at zero.
- SignalHandlers.ReceiveChunk: runs the handlers for the bits of a chunk one after the other, without the requests and waits of `recieveN`; these belong to the state machine, where `SignalSafety.ConfirmedChunkIsExact` says the same of every run.
- SignalTransfer: a handler runs as one step; `kill` fails only when the target is gone; the byte order of the size is low byte first on both sides.
- SignalLiveness.CleanRunsDeliver: says nothing about the exit code, because SIGCHLD may end the client with -1 after all output is written; `SignalSafety.ClientExits` and `ServerExits` say how each ends by its own step.
- Floating point: all quantities are exact reals, `std::exp` is any function, and a quotient by zero, which no used result depends on, is zero.
- Responses.GetResponses: requires a positive step count, at least one connection and non-negative throughputs with a positive total; otherwise the source converts a NaN to an integer or divides by zero.
- ThreadWork.DistributeWork: requires at least one hardware thread, as the source divides by their number.
- Schedule.ScheduleIntegrate: thread creation failure, cancellation and processor affinity.
- LinkedLists.LinkedList.constructor: the sentinel is a node of its own that belongs to the list's block; printing and the default allocator.
- TokenChain: the queue starts empty, and `msgsnd` neither fails nor waits.
- Relay: a failing `poll`, at which main returns -1; descriptors are positive, as the encoding in their signs needs; `offset_buffers` never differs from the start of the buffer while bytes are waiting, so it is not part of the state.
- PipelineBuffers.BufferSize: the branch for negative distances, which an unsigned difference cannot reach.
- Sockets, worker discovery, timeouts and `sendAll` of the network programs; the copies of the topology, scheduling and integration files under `parallelworkloads/network/`.
- Creating keys, sets, segments, queues, pipes and processes, argument parsing, debug output, the printing programs and the `send` programs.
