# CPU scheduling simulator and linked queue, in Dafny

This project models a small CPU-scheduling simulator. The simulator reads a
workload of processes, each with a one-character id, a burst time and an
arrival time. It then runs the workload, tick by tick, under three policies:

- Shortest Job First: non-preemptive, with a min-burst priority queue.
- Round Robin: FIFO queue with a time quantum.
- Shortest Remaining Time First: preemptive, with a min-burst heap.

Each policy records, per process id, a wait time and a turnaround time, and
stops at the first tick where no process runs and none is still to arrive.
The repository also holds a generic singly linked FIFO container `Queue<T>`,
which is modelled here as well.

Modules:

- `Process` (`process.dfy`): the `process_info` record, the per-id
  statistics, and the bookkeeping shared by the proofs. The central quantity is
  `Work(p) = turnaround - wait + burst`. Every running tick and every waiting
  tick conserves it, so at termination (burst 0) `turnaround - wait` is the
  burst the process came in with.
- `Workload` (`workload.dfy`): the in-place sort by arrival time that every
  policy starts with, and the per-tick admission of the processes that arrive
  at the current tick.
- `ReadySet` (`readyset.dfy`): extraction of a process of minimum burst (the
  priority queue top or the heap front), and the aging loop.
- `ShortestJobFirst`, `RoundRobin`, `ShortestRemainingTime` (`sjf.dfy`,
  `round_robin.dfy`, `srtf.dfy`): one module per policy. A `State` holds the
  locals of the C++ loop, with a cursor into the sorted workload standing for
  the erased front of `processVector`. A function `Step` gives the state one
  tick leaves, and each phase of a tick is a method or function whose result is the
  matching part of `Step`. `Tick` returns `Step` of the state it is given,
  keeps the loop invariant, and shows that the loop makes progress. `Run` is
  the whole simulation. It is proved to terminate on every admissible
  workload, by the rank (processes still to arrive, burst still owed, ticks
  until the next arrival). It is also proved to produce exactly one
  statistics entry per process id, each accounted for by a workload record.
  The completion tick it reports is 0 for an empty workload, and otherwise
  the tick at which some process ends.
- `LinkedQueue` (`queue.dfy`): `Queue<T>` as a class over real `Node`
  objects. The ghost field `Contents` is the abstract sequence, and `nodes`
  names the node that holds each element.

## Model

| member | source | states |
|---|---|---|
| Process.NewProcess | main.cpp:19 | the three-argument constructor keeps id, burst and arrival, sets start to -1, wait, turnaround and quantum to 0, so its conserved work is its burst |
| Process.Ran | main.cpp:130-132 | a running tick takes one unit of burst and adds to turnaround, leaving id, arrival, wait and the conserved work unchanged |
| Process.Aged | main.cpp:128-129 | a waiting tick adds one to wait and to turnaround, leaving id, arrival, burst and the conserved work unchanged |
| Process.IdsPermutation | main.cpp:62-65 | reordering the workload (the sort) keeps the set of process ids |
| Process.RecordedLater | main.cpp:104 | admitting more of the workload and moving the clock on keep every recorded entry accounted for |
| Process.RecordedFinished | main.cpp:206 | for the entries Shortest Remaining Time First records here and Round Robin records at main.cpp:135: once the whole workload is admitted, every statistics entry belongs to a workload process with that id, with turnaround minus wait equal to that record's work, and ends, counted from the arrival, by the current tick |
| Process.FreshCompleted | main.cpp:19 | for records built by the three-argument constructor, an entry accounted for by a record has a non-negative wait and a turnaround equal to wait plus burst |
| Process.StoppedFinished | main.cpp:89 | read over the original workload, a loop stop is at tick 0 exactly for an empty workload, and otherwise at the tick some of its processes ends |
| Process.ArrivedBy | main.cpp:62-65 | if every process of the sorted copy arrived between 0 and a tick, so did every process of the original workload |
| Workload.SortByArrival | main.cpp:62-65 | the in-place sort leaves the array ordered by arrival time and a permutation of its old contents |
| Workload.Sink | main.cpp:62-65 | one insertion step moves an element left past every larger arrival, keeping the array a permutation and the prefix sorted |
| Workload.SortedCopy | main.cpp:62-65 | the by-value copy each policy sorts is ordered by arrival and a permutation of the workload |
| Workload.AdmissiblePermutation | main.cpp:62-65 | sorting keeps every burst positive and every arrival non-negative |
| Workload.Admitted | main.cpp:69-74 | admission stops at the end of the run of pending entries that arrive at the current tick: all passed over arrive now, the next one does not |
| Workload.Admit | main.cpp:69-74 | admission moves, in order, exactly the pending processes arriving at the current tick to the back of the ready structure, and stops at the first that arrives at another tick |
| Workload.AdmitTracks | main.cpp:69-74 | admitted records are copies of their workload records, so every ready entry still tracks its origin |
| Workload.AdmitElapsed | main.cpp:69-74 | admitted processes have accrued no turnaround, so counted from their arrival at the current tick they are charged exactly up to it |
| Workload.AdmitIds | main.cpp:69-74 | after admission, the admitted ids are exactly those already handled plus those just queued |
| Workload.AdmitArrivals | main.cpp:69-74 | after admission every process admitted so far arrived no later than the current tick, and the next pending one arrives strictly later |
| ReadySet.FirstMin | main.cpp:56-58 | the first position of a minimum burst: no entry has a smaller burst, and every earlier entry a strictly larger one |
| ReadySet.MinIndex | main.cpp:56-58 | the position the top is taken from holds a burst no larger than any other queued burst |
| ReadySet.FindMin | main.cpp:56-58 | the priority-queue top is a process whose burst is no larger than any other queued burst, found at `MinIndex` |
| ReadySet.Without | main.cpp:82 | popping a queued process leaves the others in their order |
| ReadySet.WithoutMultiset | main.cpp:217-218 | popping the heap front removes exactly that process |
| ReadySet.IdsWithout | main.cpp:82 | after popping a process, the ids are those left plus the popped id |
| ReadySet.TotalBurstWithout | main.cpp:82 | popping a process removes exactly its burst from the burst owed |
| ReadySet.ElapsedWithout | main.cpp:217-218 | popping the heap front keeps every other entry charged up to the current tick |
| ReadySet.AgedAllKeeps | main.cpp:222-223 | aging every waiting process keeps their number, the burst owed and the ids |
| ReadySet.AgeAll | main.cpp:222-223 | every waiting process gains one tick of wait and of turnaround; burst owed and ids are unchanged |
| ShortestJobFirst.Release | main.cpp:75-78 | the running process gives up the CPU exactly when start plus burst reaches the current tick, and nothing else changes |
| ShortestJobFirst.Dispatch | main.cpp:79-88 | with the CPU free and the queue non-empty, the first minimum-burst process starts now, with wait = start - arrival and turnaround = wait + burst recorded under its id; otherwise nothing changes |
| ShortestJobFirst.AdmitKeeps | main.cpp:69-74 | admission keeps the loop's accounting: every admitted id is queued, running or has statistics, and the next pending process arrives later |
| ShortestJobFirst.ReleaseKeeps | main.cpp:75-78 | release keeps the accounting and the work owed; a process that keeps the CPU has not reached its end tick |
| ShortestJobFirst.ScheduledDispatch | main.cpp:84-87 | a process dispatched at a tick no earlier than its arrival is recorded with non-negative wait, turnaround = wait + burst, and ends, counted from its arrival, by start plus burst |
| ShortestJobFirst.DispatchKeeps | main.cpp:79-88 | dispatch keeps the accounting |
| ShortestJobFirst.DispatchRemaining | main.cpp:81-84 | dispatch moves the popped burst from the queue to the running process, so the work owed is unchanged |
| ShortestJobFirst.DispatchStepped | main.cpp:79-88 | a dispatch on a free CPU completes the tick with the accounting kept, a running burst not yet over and the work owed unchanged |
| ShortestJobFirst.StopsAtFinish | main.cpp:89 | when a tick stops the loop, it is at tick 0 only for an empty workload, and otherwise at the tick the running process ended |
| ShortestJobFirst.StepKeeps | main.cpp:68-103 | the state `Step` leaves keeps the accounting, pends only later arrivals, keeps the CPU busy whenever the queue is non-empty, and stops only as `StopsAtFinish` says |
| ShortestJobFirst.AdvanceKeeps | main.cpp:104 | moving the clock on keeps the invariant and decreases the rank |
| ShortestJobFirst.Tick | main.cpp:68-104 | one loop iteration leaves `Step` of its state, with the clock advanced unless it stops; it stops exactly when nothing runs and nothing is pending, and then at the tick a process ended; otherwise the invariant holds and the rank decreases |
| ShortestJobFirst.Loop | main.cpp:68-105 | the loop terminates with every process admitted, none queued and none running, at the tick a process ended (tick 0 for an empty workload) |
| ShortestJobFirst.FinalStats | main.cpp:89-90 | at completion every id of the workload has exactly one entry, accounted for by one of its records, and every process arrived by the completion tick |
| ShortestJobFirst.FinalCompletion | main.cpp:89-90 | the completion tick is 0 for an empty workload, and otherwise the tick at which one of its processes ends |
| ShortestJobFirst.Run | main.cpp:53-106 | the loop terminates; every process id gets one entry with non-negative wait, turnaround = wait + burst, and arrival + turnaround no later than the completion tick; every arrival is no later than completion; completion is 0 for an empty workload and otherwise exactly the end of some process |
| RoundRobin.Served | main.cpp:127-132 | the front runs one tick and loses one of quantum; the other entries among the first `n` (those queued before this tick's admission) gain one of wait and turnaround; the entries from position `n` on are unchanged |
| RoundRobin.ServedConserves | main.cpp:127-132 | service keeps every id and every entry's work, and does exactly one unit of burst |
| RoundRobin.Service | main.cpp:127-132 | the corrected aging loop computes `Served` with exactly the entries queued before admission aged |
| RoundRobin.ServiceAsWritten | main.cpp:127-132 | the aging loop as written computes `Served` with every entry behind the front aged |
| RoundRobin.AsWrittenOvercharges | main.cpp:121-132 | as written, an entry admitted at tick t behind a running front gains one tick of wait and is charged up to t + 1; the corrected service leaves it as admitted |
| RoundRobin.AsWrittenExample | main.cpp:121-132 | with A (burst 2, arrival 0), B (burst 1, arrival 1) and quantum 2, B is charged a tick of wait at the tick it arrives, and so up to tick 2 |
| RoundRobin.Resolve | main.cpp:133-143 | computes `Resolved`: a front at burst 0 has its wait and turnaround recorded and leaves; otherwise a front at quantum 0 moves to the back; either way the CPU is freed |
| RoundRobin.Dispatch | main.cpp:145-149 | computes `Dispatched`: with the CPU free and the queue non-empty, the front runs with a full quantum; otherwise nothing changes |
| RoundRobin.Phases | main.cpp:121-149 | admission, service with the aging loop as written or as corrected, and dispatch leave exactly `Step` of the state at the head of the tick |
| RoundRobin.AdmitElapsedAll | main.cpp:121-132 | as written, entries admitted at tick t behind entries charged up to t - 1 or t are charged within the same bounds |
| RoundRobin.AdmitKeeps | main.cpp:121-126 | admission keeps the accounting and the running front; the entries the service treats as waiting are charged up to the tick before, the others up to this tick, give or take one tick as written |
| RoundRobin.ServedTracks | main.cpp:127-132 | after service every entry is charged up to the current tick (give or take one tick as written); the front keeps its id, arrival and work and has burst left below its record's |
| RoundRobin.ElapsedTail | main.cpp:136 | the entries behind a front that leaves stay charged up to the current tick |
| RoundRobin.ElapsedRotate | main.cpp:140-141 | moving the front to the back keeps every entry charged up to the current tick |
| RoundRobin.AllTrackRotate | main.cpp:140-141 | moving the front to the back keeps every entry tracking its workload record |
| RoundRobin.TerminateKeeps | main.cpp:133-137 | recording a finished front keeps the accounting: its entry has turnaround minus wait equal to its work and ends, counted from its arrival, at the current tick (give or take one as written) |
| RoundRobin.RequeueKeeps | main.cpp:140-141 | replacing the queue by one with the same ids, each tracking its record, keeps the accounting |
| RoundRobin.TotalBurstRotate | main.cpp:140-141 | moving the front to the back keeps the burst owed |
| RoundRobin.RotateKeeps | main.cpp:138-143 | moving the front to the back keeps the accounting |
| RoundRobin.TerminateServed | main.cpp:133-137 | a front finished by service is recorded, and the state left keeps the accounting with one unit of burst done |
| RoundRobin.ServeKeeps | main.cpp:127-143 | service and its transitions keep the accounting, charge every entry up to the current tick, do one unit of burst, and leave the queue empty only if the front ran out at this tick |
| RoundRobin.DispatchKeeps | main.cpp:145-149 | dispatch keeps the accounting, the charges and the burst owed, and the CPU is busy exactly when the queue is non-empty |
| RoundRobin.ServicedKeeps | main.cpp:127-149 | the phases after admission keep the accounting, charge every entry up to the current tick and do one unit of burst whenever a process ran |
| RoundRobin.StopsAtFinish | main.cpp:150 | when a tick stops the loop, it is at tick 0 only for an empty workload, and otherwise at the tick the front that ran ended (give or take one as written) |
| RoundRobin.StepKeeps | main.cpp:121-150 | the state `Step` leaves keeps the accounting, pends only later arrivals, and stops only as `StopsAtFinish` says |
| RoundRobin.AdvanceKeeps | main.cpp:172 | moving the clock on keeps the invariant and decreases the rank |
| RoundRobin.Tick | main.cpp:120-172 | one loop iteration leaves `Step` of its state, with the clock advanced unless it stops; it stops exactly when nothing runs and nothing is pending, and then at the tick a process ended (give or take one as written); otherwise the invariant holds and the rank decreases |
| RoundRobin.InitInv | main.cpp:111-119 | the invariant holds before the first tick, as written and as corrected |
| RoundRobin.Loop | main.cpp:120-173 | the loop terminates with every process admitted, none queued and none running, at the tick a process ended (tick 0 for an empty workload) |
| RoundRobin.HaltedStats | main.cpp:150 | at completion every id of the workload has exactly one entry, accounted for by one of its records, and every process arrived by the completion tick |
| RoundRobin.FinalStats | main.cpp:150 | the report: one entry per id, each done by completion (plus one as written), completion 0 for an empty workload and otherwise the end of some process, and entries of fresh records in the reported form |
| RoundRobin.Run | main.cpp:109-174 | for any quantum, the loop terminates; every process id gets one entry whose turnaround minus wait is the work its record came in with, and which ends, counted from its arrival, by the completion tick; every arrival is no later than completion; completion is 0 for an empty workload and otherwise the end of some process; as written, each end may lie one tick later |
| ShortestRemainingTime.Preempts | main.cpp:208 | the preemption test holds exactly when some queued burst is strictly smaller than the running burst |
| ShortestRemainingTime.Serve | main.cpp:201-214 | computes `Served`: the running process runs one tick; at burst 0 it is recorded and frees the CPU; otherwise it gives up the CPU exactly when some queued burst is strictly smaller |
| ShortestRemainingTime.Dispatch | main.cpp:215-221 | computes `Dispatched`: with the CPU free and the heap non-empty, the first minimum-burst process leaves the heap and runs; otherwise nothing changes |
| ShortestRemainingTime.ServeDispatchAge | main.cpp:201-223 | service, dispatch and aging leave exactly `AfterAdmission` of the admitted state |
| ShortestRemainingTime.AdmitKeeps | main.cpp:193-200 | admission keeps the accounting; heap entries are charged up to the current tick and the next pending process arrives later |
| ShortestRemainingTime.TerminateKeeps | main.cpp:204-207 | recording a finished process keeps the accounting: turnaround minus wait is its work, and it ends, counted from its arrival, at the current tick |
| ShortestRemainingTime.PreemptKeeps | main.cpp:208-213 | sending the running process back to the heap keeps the accounting and the burst owed, and charges it up to the current tick |
| ShortestRemainingTime.DispatchKeeps | main.cpp:215-221 | dispatch keeps the accounting, the charges and the burst owed |
| ShortestRemainingTime.AgeKeeps | main.cpp:222-223 | aging keeps the accounting and charges every heap entry up to the next tick |
| ShortestRemainingTime.ServeSettles | main.cpp:201-214 | service keeps the accounting, does one unit of burst exactly when a process ran, and leaves the CPU idle with an empty heap only when the heap was empty and the process that ran ended at this tick |
| ShortestRemainingTime.DispatchSettles | main.cpp:215-221 | dispatch keeps the accounting and the burst owed, and leaves the CPU idle only when it was idle and the heap empty |
| ShortestRemainingTime.AgeSettles | main.cpp:222-223 | aging keeps the accounting and the burst owed and moves every heap entry's charge on one tick |
| ShortestRemainingTime.AfterAdmissionKeeps | main.cpp:201-223 | the phases after admission keep the accounting, do one unit of burst exactly when a process ran, and leave the CPU idle only when nothing is left to run |
| ShortestRemainingTime.StopsAtFinish | main.cpp:224 | when a tick stops the loop, it is at tick 0 only for an empty workload, and otherwise at the tick the process that ran ended |
| ShortestRemainingTime.StepKeeps | main.cpp:193-224 | the state `Step` leaves keeps the accounting, pends only later arrivals, and stops only as `StopsAtFinish` says |
| ShortestRemainingTime.AdvanceKeeps | main.cpp:246 | moving the clock on keeps the invariant |
| ShortestRemainingTime.Tick | main.cpp:192-247 | one loop iteration leaves `Step` of its state, with the clock advanced unless it stops; it stops exactly when nothing runs and nothing is pending, and then at the tick a process ended; otherwise the invariant holds and the rank decreases |
| ShortestRemainingTime.InitInv | main.cpp:187-191 | the invariant holds before the first tick |
| ShortestRemainingTime.Loop | main.cpp:192-247 | the loop terminates with every process admitted, none queued and none running, at the tick a process ended (tick 0 for an empty workload) |
| ShortestRemainingTime.FinalStats | main.cpp:224 | the report: one entry per id, each done by completion, completion 0 for an empty workload and otherwise the end of some process, and entries of fresh records in the reported form |
| ShortestRemainingTime.Run | main.cpp:176-248 | the loop terminates; every process id gets one entry whose turnaround minus wait is the work its record came in with, and which ends, counted from its arrival, by the completion tick; every arrival is no later than completion; completion is 0 for an empty workload and otherwise exactly the end of some process; for fresh records, wait is non-negative and turnaround = wait + burst |
| LinkedQueue.Node.constructor | Queue.hpp:15 | a node holds the given element and link |
| LinkedQueue.Queue.constructor | Queue.hpp:54-58 | a new queue is well formed and empty with count 0 |
| LinkedQueue.Queue.Copy | Queue.hpp:62-66 | the copy holds the same elements in the same order with the same count, in fresh nodes |
| LinkedQueue.Queue.FromList | Queue.hpp:70-75 | the queue holds the list's elements in list order, and its count is their number |
| LinkedQueue.Queue.Move | Queue.hpp:79-85 | the new queue takes over the elements and the count; the source is left with no elements and its old, stale count |
| LinkedQueue.Queue.IsEmpty | Queue.hpp:107-109 | true exactly when the queue holds no element |
| LinkedQueue.Queue.Size | Queue.hpp:124-126 | in a well-formed queue the count is the number of elements |
| LinkedQueue.Queue.Front | Queue.hpp:164-168 | the first element, or EmptyQueueError exactly when the queue is empty |
| LinkedQueue.Queue.Back | Queue.hpp:171-175 | the last element, or FullQueueError exactly when the queue is empty |
| LinkedQueue.LinkBehind | Queue.hpp:147 | linking a node that is not yet in a chain behind its last node extends the chain by that node and its element |
| LinkedQueue.Queue.Enqueue | Queue.hpp:142-151 | the element is appended at the back and the count grows by one; well-formedness is kept |
| LinkedQueue.Queue.Dequeue | Queue.hpp:154-161 | the front element is removed and the count drops by one; on an empty queue nothing changes |
| LinkedQueue.Queue.Destroy | Queue.hpp:129-139 | walking the chain to its end leaves the queue well formed, empty and with count 0 |
| LinkedQueue.CopyChain | Queue.hpp:181-190 | the walk over the other chain builds fresh nodes holding the same elements in the same order |
| LinkedQueue.Queue.CopyFrom | Queue.hpp:178-193 | the queue ends with the other's elements, in order and in fresh nodes, and with the other's count |
| LinkedQueue.Queue.Adopt | Queue.hpp:100-102 | taking over a chain makes the queue hold exactly that chain's elements, leaving the count alone |
| LinkedQueue.Queue.CopyAssign | Queue.hpp:89-93 | self-assignment changes nothing; otherwise the queue becomes a copy of the other |
| LinkedQueue.Queue.MoveAssign | Queue.hpp:97-104 | unless self-assigned, the two queues swap elements; this queue takes the other's count, and the other keeps its own |

## Findings

| source | as written | input that shows it | evidently intended | confidence | as-written member | corrected member |
|---|---|---|---|---|---|---|
| main.cpp:127-132 | the aging loop walks every queue entry behind the front, including the processes admitted at lines 121-126 of the same tick, so a process is charged a tick of wait for the tick it arrives at | workload A (burst 2, arrival 0), B (burst 1, arrival 1), quantum 2: at tick 1, B is admitted behind the running A and aged at once, leaving the tick with one tick of wait and, counted from its arrival, charged up to tick 2 | only the entries queued before this tick's admission waited during the tick just served, so every entry stays charged up to the current tick and each process's arrival plus turnaround is exactly the tick it ends at, as Shortest Remaining Time First already computes | high; not executed | RoundRobin.ServiceAsWritten (with RoundRobin.AsWrittenOvercharges, RoundRobin.AsWrittenExample, and RoundRobin.Run with `asWritten` true, whose bounds hold only within one tick) | RoundRobin.Service (with RoundRobin.ServeKeeps, and RoundRobin.Run with `asWritten` false, whose bounds are exact) |

## Left out

- `read_data_into_vector` and `main` (main.cpp:22-50): file input and the fixed sequence of three runs are not modelled. `Run` takes the workload as a parameter, and Round Robin takes the quantum as a parameter.
- Console output, the `std::accumulate` totals and the floating-point averages are not modelled. Nor is the empty-map division for an empty workload. `Run` returns the statistics map and the completion tick, from which those values are computed.
- The heap layout of `std::priority_queue` and of `push_heap`/`pop_heap`: a ready heap is a sequence, and extraction yields a process of minimum burst.
- ReadySet.MinIndex: among several equal minimum bursts the model takes the first in the sequence. Which of them the library's heap yields depends on its layout, so the tie order is the model's choice, not the library's.
- RoundRobin.Run: the flag `asWritten` selects the aging loop as written or as corrected (see Findings). As written, the entries admitted at a tick are charged for it. The model then proves each end, and the completion tick, only to within one tick, not the exact values.
- `std::sort` is not stable, so equal arrival times may be admitted in any order. The model proves only the order by arrival, not a tie order.
- ShortestRemainingTime.Serve: on an empty heap the source reads `processQueue.front()` of an empty vector (main.cpp:208), which is undefined behaviour. The model treats an empty heap as "no preemption".
- ShortestJobFirst.Run: the statistics are fixed at dispatch, and the running record's own `burst_time` and `turnaround_time` are never updated, as in the source. Its contract therefore speaks of the dispatch-time values only.
- `Run` (all three): requires every burst to be at least 1 and every arrival to be at least 0. With a burst of 0 or less, the source never sees the process finish. With a negative arrival, the process is never admitted. Either way the source loops forever, which a terminating method cannot express.
- 32-bit `int` overflow of the tick counter and of the statistics is not modelled. The integers are unbounded.
- `Queue::isFull` (Queue.hpp:112-121) depends on allocation failure. The model never runs out of memory.
- The destructor and the `delete` of nodes (Queue.hpp:129-139, 195-198) are not modelled. Unlinked nodes simply become unreachable.
- LinkedQueue.Queue.Dequeue: removing the last element sets `back` to null. The source leaves `Back` pointing at the deleted node, so a later `back()` reads freed memory instead of throwing. That dangling pointer is not modelled.
- `front()` and `back()` return references through which a caller may write. The model returns the element's value. The scheduler itself does not use `Queue<T>`.
