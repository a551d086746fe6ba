# Verified model of the kernel, network and crypto cores

A small preemptive kernel for the ESP8266 keeps every process queue in one array of
intrusive links, sleeps on a wrapping tick counter, is interrupted by an NMI that no code
can mask, carries a single TCP connection, a telnet line, an IPv4 packet ring and its own
heap, and joins a network with its own AES, SHA-1 and CCM. This project models that code in
Dafny and proves what it is meant to do, over all inputs, all runs and all interleavings.
`dafny verify dfyconfig.toml` checks everything.

How the files fit together:

- **Kernel.** `ProcQueue` (the array of link entries refines sequences of pids) and
  `SleepList` (the linked list of wrapped wake-up ticks refines an unbounded schedule) carry
  class `Kernel.System`, whose methods are the kernel calls, the tick and the interrupts.
  Each equals a function of `KernelState`. `KernelInv` states the global invariant,
  `KernelSteps` proves that each entry point keeps it, `KernelRuns` adds the books (holders,
  counts, births, verdicts) over arbitrary runs, `KernelTheorems` draws the conclusions,
  `KernelCalls` says what each call does to the processes it concerns and to all others,
  `KernelWaits` says what wakes a waiter and follows a wait from call to return,
  `KernelTurns` follows the turns of equals through a run, and `KernelSwitch` says who runs when
  a call returns.
  `CondNmi` takes `wait`, the tick and `cond_clock` apart into single statements with the NMI
  between any two; `CondRaces` decides which wakeups can be lost.
- **Heap.** `HeapSpec` and `HeapRuns` work on the list of free blocks, `Heap` is the code's
  in-place list in word memory and refines them.
- **TCP.** `TcpSpec` has unbounded sequence numbers, `Tcp.Connection` is the code on 32-bit
  words and a ring buffer and refines it, `TcpRuns` puts it against a conforming peer over
  a network that loses, repeats and reorders, `TcpTheorems` draws the conclusions on safety
  and `TcpProgress` those on progress. `TcpWords` carries the runs over to the 32-bit code and
  says where the two part. `TcpEnds` says what goes out, what is answered and why a connection
  ends, `TcpRetries` how the time-outs grow, `TcpTimes` exactly when a wait that ran out too late
  does harm, and `TcpMishaps` gives the runs in which any of this does.
- **Crypto.** `AesTables`, `Aes`, `AesCipher`, `KeyWrap`, `Ccm` and `Sha1` have the ciphers, modes
  and loops; `AesField`, `AesRounds` and `CcmTag` say what tables, rounds and check value are.
- **Codecs and arithmetic.** `TelnetSpec`, `TelnetOptions`, `TelnetOutcome`, `TelnetReplies`,
  `Telnet`, `Checksum`, `PacketRing`, `Division`. `Config` holds sizes and 32-bit words.

Where the code does not do what one would expect of it, the model follows the code and the
exact condition is proved:

- `wait` and `cond_clock` lower a cond's flag for whoever they serve. A statement loses an
  interrupt's wakeup exactly when it lowers the flag of a cond on which somebody else has been
  signalled and not yet woken (`CondRaces.LossIff`). With one waiting process per cond none is
  ever lost (`CondRaces.NeverLost`). When a process is about to wait for a cond and the signal
  comes first, its wait loses a wakeup exactly when somebody else is parked on that cond or
  about to be, and then that of each such process (`CondRaces.SharedLoses`); a tick in place of
  the wait loses its own exactly when a process parked there outlasts the tick
  (`CondRaces.SecondWaiterLoses`).
- Of all acknowledgement numbers not stale by a full wrap `recv` misreads exactly one: 2^31
  behind, with nothing outstanding (`Tcp.AckAccepted`, `TcpWords.MisreadIff`). It moves snd_una
  back, and the timer sends the last buffer again at a wrong number though no writer is blocked
  (`TcpWords.MisreadHarms`). On every connection that can happen after 2^31 bytes
  (`TcpMishaps.MisreadHappens`), and with fewer it never does (`TcpWords.DeliveredAsCoded`).
- The TCP timer does not look again whether anything is outstanding after its wait ran out. It
  clears a connection with nothing outstanding exactly when its retries are used up and the
  acknowledgement came in between the end of its wait and its acting
  (`TcpTimes.TimerClearsIdle`), and on every connection that can happen
  (`TcpMishaps.AnsweredYetCleared`).
- A FIN that comes in order while our own is not acknowledged is neither taken nor answered; the
  peer has to send it again (`TcpEnds.AnsweredWhen`).
- `tcp_conn_close` disconnects after its wait ran out without looking whether the connection
  has been cleared since (`TcpTimes.CloseActsLate`). That wipes the verdict of blocked writers,
  and their `write` can report success for bytes nobody acknowledged
  (`TcpMishaps.WriterMisled`). Every success reported is true as long as close is called only
  when no write waits for an acknowledgement (`TcpTimes.PatientVerdicts`), and from every
  reachable state in which one does, calling close can mislead it
  (`TcpMishaps.ImpatientMisleads`).
- `telnet_write` sends an IAC and its repetition in two writes; a reply that another process
  sends in between, whatever option it is about, is decoded as data
  (`TelnetSpec.ReplySplitsEscape`).
- Requests above 2^32 - 12 bytes wrap in the allocator's rounding (`HeapSpec.RoundedFits`).
- The CCM check value agrees with RFC 3610 exactly for associated data of 1 to 65279 bytes
  and messages of at most 65535 bytes (`Ccm.MatchesStandard`).

## Model

| member | source | states |
|---|---|---|
| ProcQueue.ProcQueues.constructor | src/system/proc_queue.c:7-10 | no queue exists and every process is on none |
| ProcQueue.ProcQueues.NewQueue | src/system/proc_queue.c:12-32 | a fresh empty queue, the others untouched, or NULL exactly when the table is used up |
| ProcQueue.ProcQueues.Enqueue | src/system/proc_queue.c:34-49 | the walk and the four link writes put the pid behind everyone of no smaller key and before everyone of smaller key; a pid already there is left alone; all other queues stay |
| ProcQueue.ProcQueues.Remove | src/system/proc_queue.c:52-63 | the pid leaves whichever queue holds it, nothing else moves, and a pid on none is a no-op |
| ProcQueue.ProcQueues.Empty | src/system/proc_queue.c:65-67 | true exactly for an empty queue |
| ProcQueue.ProcQueues.Dequeue | src/system/proc_queue.c:69-83 | takes the longest-waiting pid of greatest key, or yields the null process from an empty queue |
| ProcQueue.InsertLinks | src/system/proc_queue.c:45-48 | threading a pid between two neighbours keeps every list of the shared array doubly linked, disjoint and sorted |
| ProcQueue.EnqueueLinks | src/system/proc_queue.c:34-49 | where the walk stops is the one place that keeps keys sorted and equal keys first come, first served |
| ProcQueue.RemoveLinks | src/system/proc_queue.c:58-62 | unthreading a pid through its own two links keeps every list of the shared array |
| SleepList.Sleepers.Enqueue | src/system/sleep.c:15-23 | comparing wrapped ticks by signed difference puts the sleeper where its true wake-up time belongs, behind those due no later |
| SleepList.Sleepers.Remove | src/system/sleep.c:25-34 | the pid leaves the list wherever it stands; the order and the other sleepers stay |
| SleepList.Sleepers.PopExpired | src/system/sleep.c:50-53 | the first sleeper comes off exactly when its true time has come |
| SleepList.InsertDueSound | src/system/sleep.c:15-23 | the list stays ordered by true remaining time, with everybody on it once |
| Config.SignedDifference | src/system/sleep.c:19-50 | the signed 32-bit difference of wrapped ticks is the true difference below 2^31 |
| Kernel.System.constructor | src/system/start.c:87-106 | boot leaves the null process both running and on the ready list, with status AVAIL |
| KernelSwitch.BootState | src/system/start.c:87-106 | at boot nobody but the null process exists, waits or sleeps, no flag is up, every semaphore has its count |
| Kernel.System.MakeAvail | src/system/make_avail.c:8-15 | the new state: ready, queued by priority, need_resched raised when it outranks the running one |
| Kernel.System.Sched | src/system/sched.c:17-48 | the new state: the running process requeued if it still runs, the head of the ready list running |
| Kernel.System.SemWait | src/system/sem.c:30-38 | the new state, and the kernel invariant kept |
| Kernel.System.SemSignal | src/system/sem.c:40-49 | the new state, and the kernel invariant kept |
| Kernel.System.MutexLock | src/system/sem.c:59-61 | the new state, and the kernel invariant kept |
| Kernel.System.MutexUnlock | src/system/sem.c:63-66 | signals exactly when the count read is below 1, and the kernel invariant kept |
| Kernel.System.Sleep | src/system/sleep.c:36-42 | the new state, and the kernel invariant kept |
| Kernel.System.SleepClock | src/system/sleep.c:48-59 | the new state after all due sleepers left both their lists, and the kernel invariant kept |
| Kernel.System.WakeAll | src/system/cond.c:38-42 | the new state: everyone on the cond woken, those timed also off the sleep list |
| Kernel.System.Wait | src/system/cond.c:44-63 | the new state up to the switch of stacks, on every path, and the kernel invariant kept |
| Kernel.System.CondSignal | src/system/cond.c:79-87 | the new state, and the kernel invariant kept |
| Kernel.System.CondBroadcast | src/system/cond.c:89-95 | the new state, and the kernel invariant kept |
| Kernel.System.CondSignalIsr | src/system/cond.c:97-105 | the new state: flag left up, everyone woken, and the kernel invariant kept |
| Kernel.System.CondSignalNmi | src/system/cond.c:107-112 | only the two flags change, and the kernel invariant kept |
| Kernel.System.CondClock | src/system/cond.c:114-124 | the new state: every flagged cond with waiters emptied and its flag lowered |
| Kernel.System.Tick | src/system/handle_cputimer_intr.c:20-26 | sleepers, then conds, then the scheduler, and the kernel invariant kept |
| Kernel.System.GetPid | src/system/get_pid.c:3-11 | the least unused pid above 0, marked, or none |
| Kernel.System.Create | src/system/create.c:40-74 | the new state, the pid given back when there is no stack, and the kernel invariant kept |
| Kernel.System.Exit | src/system/start_proc.c:6-10 | the new state: the row unused before the reschedule, and the kernel invariant kept |
| KernelSteps.ExpireKeeps | src/system/sleep.c:50-58 | the loop makes available exactly the overdue sleepers, marks exactly those timed out, and keeps the queue structure |
| KernelSteps.WakeAllKeeps | src/system/cond.c:32-42 | the loop empties the cond, takes its timed waiters off the sleep list too, and touches nobody else |
| KernelSteps.CondClockKeeps | src/system/cond.c:114-124 | after the pass nobody waits on a cond that was flagged, nobody off the conds was touched, no verdict changed |
| KernelSteps.WaitKeeps | src/system/cond.c:44-63 | every path of wait keeps the kernel invariant and hands over the mutex and no other semaphore |
| KernelSteps.CreateKeeps | src/system/create.c:40-74 | the newborn is the one process that is AVAIL without being queued; the invariant is kept |
| KernelRuns.NextKeeps | src/system/cond.c:44-124 | every kernel call, tick, interrupt and NMI keeps the invariant: sorted FIFO queues, each pid exactly where its status says, counts equal to minus queue lengths, flags owed to nmi_pending |
| KernelRuns.ReachableInv | src/system/start.c:87-106 | every state reached from boot by any sequence of events satisfies the invariant |
| KernelRuns.LockReturnsHeld | src/system/cond.c:66-67 | whoever returns from mutex_lock, and so from a mutexed wait, is the holder |
| KernelTheorems.MutualExclusion | src/system/sem.c:55-66 | at most one holder of a mutex in any run, counts never above 1, even though unlock reads the count unmasked |
| KernelTheorems.SemConservation | src/system/sem.c:30-49 | queue length is the negative part of the count, and waits let through are initial plus signals less its positive part |
| KernelTheorems.Handover | src/system/sem.c:40-49 | a signal hands its token to the highest-priority, longest-waiting waiter and to nobody else |
| KernelTheorems.ReadyOutranks | src/system/make_avail.c:8-15 | in every reachable state a ready process that outranks the running one has set need_resched; after a reschedule none outranks it; the scheduler never dequeues from an empty list |
| KernelTheorems.RoundRobin | src/system/sched.c:32-38 | the n-th reschedule among equals of top priority runs the n-th of them, the others keeping their order |
| KernelTheorems.EachOnce | src/system/sched.c:32-38 | in k consecutive reschedules each of k equals runs exactly once |
| KernelTheorems.SchedRing | src/system/sched.c:32-38 | every reschedule leaves the running process and all ready ones of its priority in such a round |
| KernelTheorems.TurnsTaken | src/system/sched.c:32-38 | in every reachable state the next reschedule starts a round in which each process at the top priority runs exactly once |
| KernelTurns.RoundsOverRuns | src/system/sched.c:32-38 | over any run of calls, interrupts and ticks that block, wake, start and end nobody, the n-th event that reschedules brings the n-th of the ring to run, and the round then begins anew in the same order |
| KernelSwitch.NextSettles | src/system/sem.c:40-49 | from every reachable state, after a signal, unlock, broadcast, tick or any call that gives the processor up, no ready process outranks the running one and no reschedule is owed: nobody woken above its waker waits for the next tick |
| KernelSwitch.SignalSwitches | src/system/sem.c:40-49 | sem_signal hands the processor to the waiter it wakes exactly when that one outranks the caller; otherwise the caller runs on |
| KernelSwitch.CondSignalSwitches | src/system/cond.c:79-87 | cond_signal likewise, for the first on the cond |
| KernelSwitch.BroadcastSwitches | src/system/cond.c:89-95 | after cond_broadcast the caller runs on exactly when nobody on the cond outranks it; otherwise one of those woken runs whom none of the others outranks |
| KernelSwitch.PrioStep | src/system/create.c:71 | nothing but create sets a priority, and create only that of an unused row above the null process |
| KernelSwitch.NullIdles | src/include/proc.h:15 | in every run the null process keeps priority 0, and a call or tick that gives the processor up leaves it running only when nobody of positive priority is ready |
| KernelWaits.SteadyEvent | src/system/cond.c:53-64 | until a woken process reads its verdict nothing puts it back to sleep or changes timed_out |
| KernelWaits.TimedWaitReturns | src/system/cond.c:44-69 | over every run a timed wait is woken exactly once, by the max(delay, 1)-th tick, and then it returns -1, or before it by a signal of its own cond, and then it returns 0 |
| KernelWaits.UnsignalledWait | src/system/cond.c:44-69 | in every run in which nobody signals its cond a timed wait sleeps through fewer than max(delay, 1) ticks, is woken by exactly the one that makes it that many, and returns -1 |
| KernelWaits.PlainWaitReturns | src/system/cond.c:44-69 | over every run a plain wait is woken once, by nothing but a signal of its cond, and returns 0 |
| KernelTheorems.TimedFate | src/system/cond.c:32-64 | any one event either leaves a timed sleeper alone or wakes it: the tick at its time with timed_out set, or, only if it is on a cond, something earlier with timed_out as it was |
| KernelWaits.WaiterFate | src/system/cond.c:32-124 | any one event leaves a process parked on a cond exactly where it is, timed or not, unless its own time comes or the event is a broadcast or interrupt signal of that cond, a signal of it with this process first in line, or a tick that finds its flag up; in those cases it is woken with the verdict it has |
| KernelWaits.FlagRises | src/system/cond.c:97-124 | a flag that is down goes up by an interrupt's or the NMI's signal of that cond and by nothing else |
| KernelWaits.FlagOutlasts | src/system/cond.c:114-124 | a flag that is up outlasts the tick exactly when everybody on its cond is woken by the sleepers' pass before; otherwise the conds' pass lowers it |
| KernelTheorems.SleepIsExact | src/system/sleep.c:36-59 | in any run a sleeper is still asleep before the max(delay, 1)-th tick and woken by that tick |
| KernelTheorems.TickDelivers | src/system/cond.c:114-124 | whoever is parked on a flagged cond is awake after the next tick |
| KernelCalls.SignalWakesFirst | src/system/cond.c:79-87 | a signal wakes the highest-priority, longest waiter, off the sleep list too, with its verdict untouched; every other waiter waits on |
| KernelCalls.SignalOnNobody | src/system/cond.c:79-87 | a signal with nobody on the cond disturbs no waiter and leaves no flag |
| KernelCalls.BroadcastWakesAll | src/system/cond.c:89-95 | everyone on the cond is awake and off the sleep list, every other waiter waits on, no flag changes |
| KernelCalls.IsrWakesAll | src/system/cond.c:97-105 | the same from an interrupt, with the flag left up |
| KernelCalls.WaitParks | src/system/cond.c:53-63 | without a flag the caller ends up on the cond with a clean verdict, due delay ticks from now if timed, and somebody else runs, also when the unlock wakes somebody |
| KernelCalls.TickKeepsFlag | src/system/cond.c:118-123 | a flag on a cond nobody waits for outlasts the tick |
| KernelCalls.SemWaitParks | src/system/sem.c:30-38 | without a token the caller parks on the semaphore and somebody else runs, with one it goes on; no other waiter is disturbed |
| KernelCalls.CreateNewborn | src/system/create.c:40-74 | the least unused row becomes a process ready in name, on no queue, of the priority asked for; a failure leaves nothing behind |
| KernelCalls.ExitFrees | src/system/start_proc.c:6-10 | the row is unused again, somebody else runs, no waiter notices |
| CondNmi.GoKeeps | src/system/cond.c:44-124 | between any two statements of wait and of the tick, with the NMI landing anywhere, the state stays what the uninterrupted code would have, plus flags, and every flagged cond with waiters is owed a look |
| CondRaces.FlagsOwed | src/system/cond.c:107-124 | in every state of every run a flagged cond with waiters has nmi_pending set or lies ahead of the pass under way |
| CondRaces.PassDelivers | src/system/cond.c:114-124 | whoever is parked on a flagged cond when the pass starts is awake when the tick ends, whatever the NMI does meanwhile |
| CondRaces.PassStarts | src/system/cond.c:115-119 | at the start of the pass every parked process on a flagged cond is one PassDelivers speaks of |
| CondRaces.LossIff | src/system/cond.c:48-49 | a statement loses a wakeup exactly when it lowers the flag of a cond on which somebody else was signalled and is not yet woken |
| CondRaces.NeverLost | src/system/cond.c:44-124 | with one waiting process per cond no interrupt's signal is ever lost, wherever the NMI lands |
| CondRaces.SecondWaiterLoses | src/system/cond.c:118-122 | with the running process between its check and its wait on a cond, a signal and the tick after it lose its wakeup exactly when a process parked there is not itself due at that tick |
| CondRaces.SharedLoses | src/system/cond.c:48-51 | from every state with nothing lost and the running process between its check and its wait, a signal and then that wait lose exactly the wakeups of everybody else who counts on the cond: parked or about to park, timed or not, under whatever mutex; after an interrupt's signal only of those about to park |
| HeapSpec.RoundedFits | src/system/alloc.c:6-9 | the rounded size holds header and request exactly when the request is at most 2^32 - 12, with bounded waste |
| HeapSpec.Unique | src/system/alloc.c:97-118 | sorted lists without touching blocks that cover the same bytes are the same list |
| HeapSpec.CarveSound | src/system/alloc.c:19-37 | either way of taking or splitting a block removes exactly its bytes and leaves a sorted, spaced list of sizes multiple of 8 and at least 16 |
| HeapSpec.InsertSound | src/system/alloc.c:97-118 | free adds exactly the block's bytes and the list stays canonical, joining on both sides where blocks touch |
| HeapRuns.AllocGrants | src/system/alloc.c:5-95 | both allocators fail together, exactly when no block is large enough, and otherwise grant the rounded size with fewer than 16 bytes of waste |
| HeapRuns.AllocPlaces | src/system/alloc.c:46-62 | alloc takes from the lowest block that fits and alloc_stack from the highest |
| HeapRuns.Reachable | src/system/initmem.c:14-29 | after any run free and live blocks partition the heap and add up to it |
| HeapRuns.Determined | src/system/alloc.c:97-118 | the free list depends on the live bytes alone |
| HeapRuns.HistoryFree | src/system/alloc.c:97-138 | two histories with the same blocks out have the same free list |
| HeapRuns.AllFreed | src/system/initmem.c:25-27 | freeing everything, in any order, yields the single initial block |
| HeapRuns.AllocThenFree | src/system/alloc.c:120-138 | alloc or alloc_stack followed by free restores the identical list |
| Heap.Heap.constructor | src/system/initmem.c:14-29 | the region rounded down to a multiple of 8 is one free block |
| Heap.Heap.BlockSize | src/system/alloc.c:6-9 | the header added, rounded up to 8 in 32 bits, at least the minimum |
| Heap.Heap.Alloc | src/system/alloc.c:5-43 | the in-place search and split do what the list of blocks says, writing only inside free blocks |
| Heap.Heap.AllocStack | src/system/alloc.c:46-95 | the same for the last block that fits, carved from its top |
| Heap.Heap.Free | src/system/alloc.c:97-138 | the in-place merge does what the list says, writing only inside free blocks and the one given back |
| Heap.Heap.Available | src/system/alloc.c:140-148 | the total free is the heap less what is live |
| Heap.Heap.Store | src/system/alloc.c:21-37 | a client writing anywhere in a block it holds never disturbs the allocator |
| Heap.PayloadKept | src/system/alloc.c:5-118 | no allocator call changes a byte of a block somebody else holds |
| TcpRuns.ResendSound | src/device/net/tcp.c:141-146 | a retransmission after any partial acknowledgement carries the right tail of the buffer at its number, and bytes only while a writer is blocked |
| TcpRuns.RecvSound | src/device/net/tcp.c:194-294 | whatever segment a conforming peer sent, recv keeps both halves of the connection or clears it with the right verdict |
| TcpRuns.NextKeeps | src/device/net/tcp.c:194-442 | every step of peer, network, reader, writer, closer and timer keeps the system invariant |
| TcpTheorems.ReadsInOrder | src/device/net/tcp.c:170-192 | what was read is always a prefix of the peer's stream, and until close every acknowledged byte was read or is in the ring of at most 2048 |
| TcpTheorems.ReadVerdict | src/device/net/tcp.c:333-346 | read returns 0 only after the whole stream up to the FIN, -1 exactly when the connection is gone, else the next bytes |
| TcpTheorems.SendsRightBytes | src/device/net/tcp.c:141-157 | every payload byte ever sent, first or again, is the byte of the write buffers at that number |
| TcpTheorems.WriteAcknowledged | src/device/net/tcp.c:302-317 | a chunk reported written was acknowledged whole and the peer has it where it belongs, unless a close disconnected a connection already cleared |
| TcpTheorems.WholeWrite | src/device/net/tcp.c:319-331 | a write of any length that returns n had each of its n bytes acknowledged, and the peer has them in order at the numbers they were sent at, whatever other writes came between its chunks, unless a close disconnected a connection already cleared |
| TcpTheorems.ResendNeedsWriter | src/device/net/tcp.c:141-146 | in every reachable state the write buffer is read only while its writer is blocked |
| TcpTheorems.EdgeStep | src/device/net/tcp.c:105-106 | in one step from any state of the invariant everything sent, and nothing else, goes out, reaching at least as far as all before it |
| TcpTheorems.EdgeNeverLeft | src/device/net/tcp.c:105-106 | in every run, whatever goes out offers a right window edge no less than every segment before it |
| TcpTheorems.StraysAreEmpty | src/device/net/tcp.c:434-439 | what the timer sends on a cleared connection is empty and carries no flags |
| TcpTheorems.NeverRefused | src/device/net/tcp.c:264-269 | in every reachable state all edges advertised still stand, and the next segment in order of a peer that kept within them is not refused for lack of room |
| TcpEnds.WhatGoesOut | src/device/net/tcp.c:93-157 | in every run each segment sent is a SYN-ACK, ACK, PSH-ACK or FIN-ACK with at most 536 bytes, data only as PSH-ACK; the last of a step acknowledges the number now expected and offers the room there now is, at most 1072 bytes; the last of a connection acknowledges the FIN |
| TcpEnds.AnsweredWhen | src/device/net/tcp.c:230-293 | over every run, a delivered segment goes unanswered exactly when it is a reset, or uses up no number and is not a repeated SYN, or is the last acknowledgement, or is a bare FIN in order while our own is not acknowledged |
| TcpEnds.SynAgain | src/device/net/tcp.c:237-240 | the peer's SYN come again before our SYN-ACK is acknowledged is answered with that SYN-ACK and changes nothing |
| TcpEnds.AckMoves | src/device/net/tcp.c:242-244 | over every run, a delivered acknowledgement of something outstanding, in part or whole, moves snd_una to its number at once, and no other does |
| TcpEnds.EndsWhen | src/device/net/tcp.c:230-440 | over every run, a connection is cleared by exactly these: a reset in the window, the segment with which both FINs are acknowledged and taken, the time-out after five retries, a close that waited long enough |
| TcpEnds.ChunkSent | src/device/net/tcp.c:302-331 | over every run, a chunk goes out at the next number exactly when all before it is acknowledged and no FIN has been sent, and every chunk but the last of a write has 536 bytes |
| TcpEnds.FinIsSent | src/device/net/tcp.c:348-355 | a close sends its FIN, at the next number and with the whole window open, exactly under the same condition |
| TcpEnds.ReadReturns | src/device/net/tcp.c:333-338 | over every run, a read need not wait exactly when bytes acknowledged to the peer are unread, or its FIN has been taken, or the connection is gone |
| TcpEnds.ReadGets | src/device/net/tcp.c:180-192 | over every run, what a read then returns is all that is unread up to the n bytes asked for, the next ones of the peer's stream |
| TcpEnds.RefusalClears | src/device/net/tcp.c:219-220 | the reset with which LISTEN answers a segment of another connection clears that connection at its sender, since it carries the number acknowledged |
| TcpProgress.ResendWhole | src/device/net/tcp.c:141-146 | a retransmission carries everything not acknowledged: the rest of the buffer, or SYN or FIN |
| TcpProgress.WriteCanFinish | src/device/net/tcp.c:425-442 | from every reachable state with a write blocked and a retry left there is a way on that ends with the write acknowledged whole |
| TcpRetries.TimeoutDoubles | src/device/net/tcp.c:33-35 | in every reachable state of a connection the time-out is one second doubled once for each time the timer acted since something last went out for the first time, at most five times, and so far below 2^31 |
| TcpRetries.SixthClears | src/device/net/tcp.c:432-440 | over every run, the timer sends everything unacknowledged once more and doubles its wait, except that the sixth time in a row it clears the connection and sends nothing |
| TcpTimes.TimerClearsIdle | src/device/net/tcp.c:432-440 | over every run, it clears a connection with nothing outstanding exactly when the retries are used up and the completing acknowledgement came between the end of its wait and its acting |
| TcpMishaps.AnsweredYetCleared | src/device/net/tcp.c:432-440 | for every connection there is a run in which that happens |
| TcpTimes.CloseActsLate | src/device/net/tcp.c:356-359 | over every run, a close disconnects a connection already cleared exactly when something else cleared it between the end of the close's wait and its acting |
| TcpTimes.LateCloseWipes | src/device/net/tcp.c:159-168 | such a close turns the pending -1 of every blocked writer into 0 |
| TcpTimes.PatientVerdicts | src/device/net/tcp.c:302-362 | as long as close is called only when no write waits for an acknowledgement, every 0 of send_data and every n of tcp_conn_write is true |
| TcpMishaps.ImpatientMisleads | src/device/net/tcp.c:348-362 | from every reachable state in which a write waits for its acknowledgement, calling close can lead to its send_data returning 0 for bytes not acknowledged |
| TcpMishaps.WriterMisled | src/device/net/tcp.c:319-362 | for every connection there is a run in which tcp_conn_write returns n for bytes never acknowledged |
| Tcp.AckAccepted | src/device/net/tcp.c:242-243 | for every number not stale by a full wrap, recv's two 32-bit comparisons accept exactly what is outstanding and, with nothing outstanding, the number 2^31 behind |
| Tcp.ResetAccepted | src/device/net/tcp.c:230-234 | the two comparisons of a reset accept exactly the numbers in the window, for every number not stale by a full wrap |
| TcpWords.Readable | src/device/net/tcp.c:230-294 | every segment on the wire can be read as one that is not stale by a full wrap, so Tcp.Connection.Recv speaks of them all |
| TcpWords.DeliveredAsCoded | src/device/net/tcp.c:230-294 | in every reachable state, with fewer than 2^31 - 1 bytes written and 2^32 - 2 to read, every segment the network may deliver is one the 32-bit code takes just as the machine of the runs does |
| TcpWords.MisreadIff | src/device/net/tcp.c:242-244 | the 32-bit code departs from what is meant exactly on an acknowledgement 2^31 behind with nothing outstanding, unless it is on the FIN that ends the connection |
| TcpWords.MisreadHarms | src/device/net/tcp.c:141-146 | then snd_una goes back by 2^31 and the timer sends the last buffer whole at a number 2^31 too low, with no writer blocked |
| TcpMishaps.MisreadHappens | src/device/net/tcp.c:242-244 | for every connection there is a run in which the peer's first acknowledgement, come in late once more, is that one |
| Tcp.SeqLt | src/device/net/tcp.c:231-243 | the modular comparison is the signed difference of the words, and so the true one for numbers less than 2^31 apart |
| Tcp.PutBytes | src/device/net/tcp.c:170-178 | copying round the end of the ring appends exactly the data |
| Tcp.GetBytes | src/device/net/tcp.c:180-192 | the two copies are exactly the oldest bytes, and the rest stays |
| Tcp.Connection.RxPut | src/device/net/tcp.c:170-178 | the ring holds what it held followed by the data |
| Tcp.Connection.RxGet | src/device/net/tcp.c:180-192 | the oldest bytes come out, as many as asked for or there are |
| Tcp.Connection.Disconnect | src/device/net/tcp.c:159-168 | everything cleared but the verdict for a blocked writer |
| Tcp.Connection.Listening | src/device/net/tcp.c:205-223 | opens on a SYN without ACK, with a SYN-ACK of the number behind it, answers an ACK with a reset of the very number acknowledged, ignores the rest |
| Tcp.Connection.Recv | src/device/net/tcp.c:230-294 | on 32-bit words does what RecvWord says, answers included, for every segment not stale by a full wrap, the misread one among them |
| Tcp.Connection.SendData | src/device/net/tcp.c:302-310 | the same for a write up to its wait |
| Tcp.Connection.Read | src/device/net/tcp.c:339-345 | the same for a read once it no longer waits |
| Tcp.Connection.Close | src/device/net/tcp.c:348-355 | the same for a close up to its wait |
| Tcp.Connection.Timeout | src/device/net/tcp.c:434-440 | the same for the timer when its wait ran out |
| Tcp.ConnWrite | src/device/net/tcp.c:319-331 | the chunks offered are the ones the runs offer, they make up the buffer in order up to the first that fails, and n is returned exactly when none failed |
| AesTables.SboxInverse | src/device/wifi/wifi_crypto.c:126-228 | the two tables undo each other on every byte |
| AesField.SboxMeans | src/device/wifi/wifi_crypto.c:126-142 | the substitute of 0 is the affine image of 0, and that of any other byte x is the affine image of y exactly when x times y is 1 in GF(2^8), as in section 5.1.1 of FIPS 197 |
| AesField.InverseUnique | src/device/wifi/wifi_crypto.c:126-142 | no byte but 0 has two such inverses |
| AesField.MixMeans | src/device/wifi/wifi_crypto.c:173-258 | the two column mixings are products with 3x^3 + x^2 + x + 2 and 11x^3 + 13x^2 + 9x + 14 modulo x^4 + 1 |
| Aes.MulByConstants | src/device/wifi/wifi_crypto.c:230-234 | the bitwise multiplication by 9, 11, 13 and 14 is the sum of doublings FIPS 197 means |
| Aes.XtimeLinear | src/device/wifi/wifi_crypto.c:144 | doubling in GF(2^8) respects addition |
| Aes.MixInverse | src/device/wifi/wifi_crypto.c:173-258 | the column mixings of encryption and decryption undo each other on every column |
| AesCipher.DecryptEncrypt | src/device/wifi/wifi_crypto.c:161-262 | decryption undoes encryption for every key schedule and block |
| AesCipher.EncryptDecrypt | src/device/wifi/wifi_crypto.c:161-262 | and encryption undoes decryption |
| AesCipher.MulByte | src/device/wifi/wifi_crypto.c:230-234 | the loop computes the product |
| AesCipher.EncryptBlock | src/device/wifi/wifi_crypto.c:161-186 | the loop over rounds is the cipher of section 5.1 of FIPS 197, in place too |
| AesRounds.RoundColumns | src/device/wifi/wifi_crypto.c:164-184 | each column after a round comes from one byte of each column before it, the next column one row lower each time, and one word of the key; the tenth round does not mix |
| AesCipher.DecryptBlock | src/device/wifi/wifi_crypto.c:236-262 | the loop over rounds is the inverse cipher of section 5.3 |
| KeyWrap.RconTable | src/device/wifi/wifi_crypto.c:149 | the ten round constants are the powers of x |
| KeyWrap.ExpandKey | src/device/wifi/wifi_crypto.c:146-159 | the in-place loop builds the key schedule of section 5.2 |
| AesRounds.ScheduleBytes | src/device/wifi/wifi_crypto.c:146-159 | the schedule byte by byte: the key first, then each byte from the one sixteen and the one four before it, substituted and turned at the start of every round |
| KeyWrap.UnwrapWrap | src/device/wifi/wifi_crypto.c:195-209 | unwrapping what section 2.2.1 of RFC 3394 wraps gives it back with the initial value intact, for every key and block count |
| KeyWrap.AcceptedIsWrap | src/device/wifi/wifi_crypto.c:208-209 | and exactly the wraps are accepted |
| KeyWrap.StepFits | src/device/wifi/wifi_crypto.c:198 | the step number fits its 32-bit word, computed as the code does |
| KeyWrap.WrapIsStandard | src/device/wifi/wifi_crypto.c:195-206 | the two nested loops are the 6n steps of section 2.2.1 of RFC 3394 in order, numbered from 1, block by block, from the initial value of eight bytes a6 |
| CcmTag.CountMask | src/device/wifi/wifi_crypto.c:198-201 | what is added into the check register is the step number as a big-endian number of eight bytes |
| KeyWrap.AesUnwrap | src/device/wifi/wifi_crypto.c:188-210 | the loops unwrap in place and return 0 exactly when the check register holds the initial value |
| Ccm.OpensOnlySealed | src/device/wifi/wifi_crypto.c:311-335 | a message opens to p exactly when it is the sealing of p, for every key, nonce and associated data |
| CcmTag.Masks | src/device/wifi/wifi_crypto.c:311-335 | check value byte by byte xor the encrypted counter block 0 is the chained tag, and ciphertext xor the encrypted blocks 1, 2 and so on is the message |
| CcmTag.Layout | src/device/wifi/wifi_crypto.c:273-306 | counter and header blocks are a flag byte, the nonce, and a big-endian number of two bytes |
| CcmTag.ChainDetects | src/device/wifi/wifi_crypto.c:264-267 | two strings of equally many blocks that differ in at most one block chain from the same start to the same value only when they are equal |
| CcmTag.TagDetects | src/device/wifi/wifi_crypto.c:287-293 | two messages of equal length that differ within one block have equal tags exactly when they are equal |
| CcmTag.TagDetectsData | src/device/wifi/wifi_crypto.c:278-285 | a byte of associated data changed changes the tag |
| CcmTag.TagDetectsNonce | src/device/wifi/wifi_crypto.c:272-276 | two nonces give equal tags exactly when they are equal |
| Ccm.CountersDistinct | src/device/wifi/wifi_crypto.c:296-309 | no counter block is used twice, the check value's included, exactly for messages of at most 65535 blocks |
| Ccm.MatchesStandard | src/device/wifi/wifi_crypto.c:269-294 | the chained blocks are those of section 2.2 of RFC 3610 exactly for associated data of 1 to 65279 bytes and a message of at most 65535 |
| Ccm.ChainData | src/device/wifi/wifi_crypto.c:277-286 | the two nested loops chain the length and the data cut into zero-filled blocks |
| Ccm.Mac | src/device/wifi/wifi_crypto.c:269-294 | the whole check value is the chain over header, data and message |
| Ccm.Ctr | src/device/wifi/wifi_crypto.c:296-309 | the loop is the key stream added byte by byte, even when the counter wraps |
| Ccm.CcmEncrypt | src/device/wifi/wifi_crypto.c:311-322 | ciphertext and check value are the sealing |
| Ccm.CcmDecrypt | src/device/wifi/wifi_crypto.c:324-335 | 0 exactly when the message opens, with the plaintext left in the buffer either way |
| Sha1.FoldMore | src/device/wifi/wifi_crypto.c:33-42 | feeding a few bytes more either fills the buffer or compresses exactly one block |
| Sha1.ChooseForm | src/device/wifi/wifi_crypto.c:17 | the code's mixed or-form is Ch of FIPS 180-4 |
| Sha1.MajorityForm | src/device/wifi/wifi_crypto.c:19 | the code's or-form is Maj of FIPS 180-4 |
| Sha1.Roots | src/device/wifi/wifi_crypto.c:17-20 | the four constants are 2^30 times the square roots of 2, 3, 5 and 10, rounded down |
| Sha1.InitialBytes | src/device/wifi/wifi_crypto.c:28-29 | the initial value, byte by byte |
| Sha1.TurnIs | src/device/wifi/wifi_crypto.c:21-22 | a turn moves five words on by one place, the second turned by 30 bits, and sums five terms into the first |
| Sha1.FIs | src/device/wifi/wifi_crypto.c:17-20 | which of the three functions is used in which turn |
| Sha1.ChBits | src/device/wifi/wifi_crypto.c:17 | bit by bit, the first is y where x is 1 and z where x is 0 |
| Sha1.MajBits | src/device/wifi/wifi_crypto.c:19 | the third is what its first two arguments are where they agree; Sha1.MajTurned gives the other pairs |
| Sha1.ScheduleIs | src/device/wifi/wifi_crypto.c:8-12 | the first sixteen words are the bytes of the block, each further word is made of the ones 3, 8, 14 and 16 before it, turned by one bit |
| Sha1.PaddingIs | src/device/wifi/wifi_crypto.c:45-55 | the padding is 80, zeros up to eight bytes short of a whole block, and the length in bits as a big-endian number |
| Sha1.Sha1Block | src/device/wifi/wifi_crypto.c:6-25 | schedule and 80 turns are the compression function |
| Sha1.GapIs | src/device/wifi/wifi_crypto.c:50 | the padding loop stops exactly at 56 bytes, after the one number of zeros that fits |
| Sha1.LengthWords | src/device/wifi/wifi_crypto.c:45-46 | the two shifted words are the bit length |
| Sha1.Context.Update | src/device/wifi/wifi_crypto.c:33-42 | the state depends on the bytes fed alone, not on how calls divide them |
| Sha1.Context.Final | src/device/wifi/wifi_crypto.c:44-59 | terminates; below 2^32 bytes the digest is the fold over the message padded as in section 5.1.1 of FIPS 180-4 |
| TelnetSpec.DecodeCut | src/device/net/telnet.c:231-261 | cutting the wire anywhere changes neither data nor replies |
| TelnetSpec.TranscriptDecodes | src/device/net/telnet.c:127-151 | decoding gives back the bytes written, with option commands anywhere but between an IAC and its repetition |
| TelnetSpec.ReplySplitsEscape | src/device/net/telnet.c:282-289 | an option command sent between an IAC and its repetition, about any option, is decoded as data and changes no option, and leaves the peer inside a command unless the option is 255 |
| TelnetSpec.RoundTrip | src/device/net/telnet.c:275-324 | reading what was written yields it, for every byte string and every cut into reads |
| TelnetOptions.TalkSteps | src/device/net/telnet.c:153-217 | one side of one option is always in one of nine situations; taking a message brings it nearer to rest; no refusal finds it on |
| TelnetOptions.NextKeeps | src/device/net/telnet.c:114-217 | every event of two such ends over two channels keeps all four conversations in those situations |
| TelnetOptions.NoLoops | src/device/net/telnet.c:114-217 | n calls of enable_option cause at most 2n messages to be taken, in any interleaving |
| TelnetOptions.Agreement | src/device/net/telnet.c:153-217 | with nothing on its way an option is on at its owner exactly when the other end thinks so |
| TelnetOptions.RefusalsMeetNo | src/device/net/telnet.c:165-171 | no refusal ever meets an option that is on |
| TelnetOutcome.FitsNext | src/device/net/telnet.c:114-217 | the situation of a conversation always fits what its two ends have ever asked for |
| TelnetOutcome.Outcome | src/device/net/telnet.c:46-52 | with nothing on its way an option is on exactly when the other end ever asked for it, or its owner did and it is one this code accepts, whatever crossed on the way |
| TelnetReplies.UnknownOption | src/device/net/telnet.c:176-212 | on the wire, from any state between commands and for every option but 1 and 3: DO is answered WONT, WILL is answered DONT, DONT and WONT are not answered, no table changes, no data comes out |
| TelnetReplies.OursAsked | src/device/net/telnet.c:165-193 | on the wire, for our options 1 and 3 in every state: DO is granted and answered WILL only when it was off, DONT switches off and is answered WONT only when it was on |
| TelnetReplies.TheirsOffered | src/device/net/telnet.c:165-212 | on the wire, for the client's options 1 and 3: an offer of 3 is accepted and one of 1 refused unless we asked for it, WONT switches off and is answered DONT only when it was on |
| TelnetReplies.SubnegotiationSkipped | src/device/net/telnet.c:219-229 | a subnegotiation, with anything in it but IAC SE, yields no data and no reply and changes nothing |
| TelnetReplies.CommandSkipped | src/device/net/telnet.c:135-150 | so does any command without an option |
| Telnet.Terminal.Enable | src/device/net/telnet.c:114-125 | asks exactly for a known option that is off |
| Telnet.Terminal.ProcessOption | src/device/net/telnet.c:153-217 | the new option state and the reply, on every path |
| Telnet.Terminal.Process | src/device/net/telnet.c:231-261 | the data byte or -1, the new state and what is sent |
| Telnet.Terminal.DecodeInPlace | src/device/net/telnet.c:311-317 | output never overtakes input, so decoding in place equals decoding |
| Telnet.Terminal.Read | src/device/net/telnet.c:302-324 | the bytes returned are the decoding of what was read; 0 only at the end of the connection |
| Telnet.Terminal.Write | src/device/net/telnet.c:275-300 | n means the escaped form went out whole; -1 means a proper part of it did |
| Checksum.Partial | src/device/net/ipv4.c:34-44 | the loop adds the little-endian words, an odd byte last |
| Checksum.NoOverflow | src/device/net/ipv4.c:34-44 | the sum of a region is bounded by its words |
| Checksum.Reach | src/device/net/ipv4.c:34-44 | 128 KiB from any 16-bit start never overflow 32 bits, and a word more can |
| Checksum.EvenSplit | src/device/net/ipv4.c:33-44 | sums of even pieces add up |
| Checksum.Compute | src/device/net/ipv4.c:46-51 | folding terminates with the complement of the one's complement sum of RFC 1071 |
| Checksum.StoredVerifies | src/device/net/ipv4.c:111-120 | a region whose zeroed aligned field holds its checksum checks to 0 |
| Checksum.ByteOrder | src/device/net/ipv4.c:33-51 | summing and storing in either byte order stores the same two bytes |
| PacketRing.NextKeeps | src/device/net/ipv4.c:82-103 | every interleaved statement of producer and consumer keeps the ring's accounts |
| PacketRing.TokensBalance | src/device/net/ipv4.c:82-103 | tokens, the packet in processing and one published but unsignalled make up head minus tail, at most 4, across wraparound |
| PacketRing.InOrder | src/device/net/ipv4.c:96-103 | packets are processed in acceptance order, each once and unchanged, with the hardware address each came from |
| PacketRing.SlotStable | src/device/net/ipv4.c:88-101 | the slot being processed is never overwritten |
| PacketRing.RefusedWhenFull | src/device/net/ipv4.c:84-87 | a packet is refused exactly when it has more than 1500 bytes or four are unfinished, and then leaves no trace |
| PacketRing.Ring.Enqueue | src/device/net/ipv4.c:82-94 | with 32-bit counters: appends a packet that fits into a ring not full, else changes nothing |
| PacketRing.Ring.Process | src/device/net/ipv4.c:99-101 | hands over the oldest packet and frees its slot |
| Division.Turn | src/lib/stdlib.c:7-13 | the running remainder is bounded by the prefix of the dividend, so its shift never overflows for any divisor |
| Division.UDivMod | src/lib/stdlib.c:3-16 | exact quotient and remainder for every divisor but 0, and what comes out for 0 |
| Division.TruncMeans | src/lib/stdlib.c:32-48 | truncating quotient and remainder have the properties C asks of them |
| Division.DivSi3 | src/lib/stdlib.c:32-39 | truncating division for every pair, INT_MIN / -1 wrapping |
| Division.ModSi3 | src/lib/stdlib.c:41-48 | the remainder with the dividend's sign for every pair |

## Left out

- Kernel.System.Wait: ends at the switch of stacks; what follows is the event WaitReturn of the resumed process, with its -1 or 0, and then mutex_lock, stated by KernelWaits.TimedWaitReturns, KernelWaits.PlainWaitReturns and KernelRuns.LockReturnsHeld.
- Kernel.System.Create: atomic, though get_pid runs unmasked; register frame and stack contents are not modelled, the allocator's answer is a parameter.
- Kernel.System.Sched: without the stack canary sweep and without the saving of registers.
- ProcQueue.ProcQueues.Enqueue: keys are above INT_MIN and the pid is on no other queue, as everywhere in the kernel.
- SleepList.Sleepers.Enqueue: delays are below 2^31, beyond which the signed comparison means something else.
- Kernel.System.Enqueue: priorities are above INT_MIN, since the walk would otherwise run past the tail.
- Kernel.System.Sleep: delays are below 2^31, beyond which signed tick differences mean something else.
- KernelRuns.NextKeeps: the null process never blocks, mutexes are unlocked by their holder, initial counts are not negative; unlock's read of the count and its signal are two events.
- sem_create and cond_create: the search for an unused row is not modelled; all rows are taken to be in use from boot.
- CondRaces.NeverLost: speaks of one waiting process per cond; beyond that CondRaces.LossIff says which statement loses a wakeup, and CondRaces.SharedLoses and CondRaces.SecondWaiterLoses from where one can be lost.
- Heap.Heap.constructor: the heap lies below 2^32 and memory holds one value per aligned word address.
- Heap.Heap.Free: called with a pointer alloc or alloc_stack returned and not freed since, as the code demands.
- Tcp.Connection.Recv: the segment is of this connection, its header and data offset checked; which of the numbers a wrap apart a word stands for is read off the state, since nothing else could tell.
- TcpWords.DeliveredAsCoded: beyond 2^32 - 2 bytes each way a segment may be stale by a full wrap, and 32-bit numbers cannot tell it from a new one.
- TcpRuns.NextKeeps: one connection a run, the peer sets ACK on everything after its SYN, nobody reads after calling close, and close comes after accept, so never in SYN_RCVD; the peer may reset at any time.
- TcpRetries.SixthClears: how long a wait lasts is a value of the state; no clock runs in TcpRuns, and a wait runs out by an event.
- TcpTheorems.EdgeNeverLeft: nothing is said about when a window is reopened; read sends no window update.
- Tcp.ConnWrite: the verdicts of send_data are parameters; in TcpRuns the same loop is the events WriteCall, Offer, OfferReturns and WriteReturns, and TcpTheorems.WholeWrite speaks of those.
- listening, accepting, ports, addresses and the reset policy for other connections: plumbing around the one connection.
- KeyWrap.AesUnwrap: input and output buffers are different ones; 6 n is below 2^32, which holds whenever the buffers fit the address space; `keklen` is ignored as in the code.
- Ccm.CcmDecrypt: input and output buffers are different ones.
- Sha1.Context.Final: at 2^32 bytes and beyond the length kept is the length modulo 2^32, as in the code.
- HMAC, PBKDF2 and the key derivation function: compositions of the hash that add no state of their own.
- Telnet.Terminal.Write: which write on the connection fails first is a parameter; characters are unsigned as on this machine.
- Telnet.Terminal.Read: the results of the reads below are a parameter.
- TelnetOptions.NextKeeps: both ends run this code, options other than echo and suppress-go-ahead are never asked for, and the two channels lose nothing.
- Division.UDivMod: setting a quotient bit is modelled as adding it, the bit being clear.
- radio, MAC, DMA, UART, GPIO, watchdog and random-number registers, assembly and linker scripts: register accesses without a meaning to prove.
- device table, DHCP, ARP, DNS, HTTP, shell and logging: plumbing beside the cores above.
- the WPA handshake and station join: they depend on the radio and the access point.
