# A verified model of the train kernel and its traffic controller

The repository is a small microkernel for a single-board computer, and the program it was
written for: a controller that drives model trains over a track with switches and sensors.
This project models its hardest parts in Dafny and proves what they promise.

* **The route planner** (`TrackGraph`, `FindPath`). The track is any layout that satisfies
  `WellFormed`: every place is two mirrored nodes, every edge can be travelled both ways, no
  cycle avoids the sensors. How nodes are numbered does not matter. `FindPath` is Dijkstra's
  algorithm as the source has it, with a heap that keeps stale entries, an early exit, blocked
  nodes and free reversals on sensors, followed by the reconstruction of the route as
  segments. It is proved to find a plan exactly when there is a route, to find a shortest one,
  and never to overflow its heap.
* **Walking the track** (`Walks`, `Reversal`). `next_sensor` and both versions of
  `walk_sensor`, judged by walks over the track; what a train meets when it turns round.
* **The kernel** (`Containers`, `KernelSteps`, `KernelSafety`, `KernelCalls`, `KernelRuns`,
  `KernelLives`, `Kernel`). One link per task, shared by the free list, twelve ready queues, fifty mailboxes
  and six event queues. The class `TaskManager` has a method for each call; each is proved to
  do what a step function says; the steps are proved to keep one invariant over any run of
  calls and interrupts, and to mean what the calls promise in terms of task ids, places and
  orders; and over whole runs, a task that waits for an event runs again when that event comes
  and not before, and one that exited not until its slot has a new life.
* **The drivers** (`DriverSteps`, `DriverSafety`, `DriverBehaviour`, `MiniDriver`). One state
  machine a train, sharing the switch locks: no lock leaks, whatever the interleaving; and what
  is demanded and free is taken, so that every branch set against a train's path when its
  driver last looked ahead is held by it, set its way, or still demanded.
* **Dead reckoning** (`DeadReckoning`). Where the server believes a train is, and how sensors
  cancel the errors of the predictions. In a run the switches are part of the state: any of
  them may be thrown between any two events, by this train's driver or another's.
* **The servers** (`ClockServer`, `MatchServer`, `Terminal`) as message-handling objects with
  ghost histories of what their clients see. What they rely on, that a client that waits for
  an answer does not send, is what the kernel proves (`KernelRuns.WaitingDoesNotSend`,
  `KernelRuns.SilentUntilAnswered`).
* **`memcpy`** (`Memcpy`), word by word, as a refinement of copying bytes.

Code that changes state is modelled with classes and loops. A step function gives the new
state as a value, and the lemmas about runs are about those functions.

Where code and documentation differ, the model follows the code:

* A message is delivered as long as its sender says: the room the receiver offers is never
  read (`kern/tasking.cpp:17`). `KernelSafety.SendDelivered` and
  `KernelSafety.ReceiveDelivered` state exactly when it fits, and `KernelRuns.MessageOverruns`
  gives a run from boot in which a byte beyond the receiver's buffer changes.
* Nodes that are to be avoided when a driver turns back are overwritten before they are used
  (`traffic_mini_driver.cpp:120`), so the model has no such nodes.
* A waiting task keeps the tag it ran with: `EventWait` is never written
  (`kern/tasking.cpp:191-228`).
* The error a sensor reveals is worked out in 24.8 fixed point: it is exact if and only if
  it fits 24 bits (`DeadReckoning.DeltaExact`). The conversion to fixed point multiplies a
  signed 32-bit number by 256; for distances of 2^23 and more that overflows, and the model
  takes it to wrap around.
* The clock server answers a `DelayUntil` of now at once and refuses one of the past, where
  past means the half of the tick's range before now.

## Model

| member | source | states |
|---|---|---|
| FindPath.FindPath | track_graph.cpp:33-127 | No plan exactly when every route from start to end leaves a blocked node; otherwise the plan's nodes, in order, are such a route, of minimal length among all of them, repeating no node; every segment is a non-empty walk along track edges, two segments meet at a sensor and its reverse, and the distances are those of the walks less the start offset and plus the end offset |
| FindPath.Search | track_graph.cpp:54-95 | The search reaches the end exactly when it can be reached, with a shortest distance, and leaves a tree in which every node was finalised after its predecessor; every push is within the capacity of 288 |
| FindPath.BoundedHeap.Push | track_graph.cpp:52-55 | The heap holds one more entry; room for it is the caller's obligation |
| FindPath.BoundedHeap.Pop | track_graph.cpp:59-60 | A least entry is removed, any of several |
| FindPath.Relax | track_graph.cpp:75-80 | Offering a node a distance keeps what is known of finalised nodes, and pushes at most one entry, only if the distance improves |
| FindPath.Expand | track_graph.cpp:69-90 | Expanding a node relaxes each of its arcs; a stale entry pushes nothing, a fresh one at most two entries |
| FindPath.NoShorterRoute | track_graph.cpp:58-64 | When the heap has nothing below a distance, no route to a node not yet finalised is shorter than it: why the search may stop at the end node |
| FindPath.NoEscape | track_graph.cpp:58-95 | When the heap is empty, every route from a reached node stays among reached nodes: why no distance means no route |
| FindPath.Popped | track_graph.cpp:58-68 | Taking a least entry either finalises its node with a shortest distance, or the entry was stale and its node is finalised already |
| FindPath.Reached | track_graph.cpp:61-64 | The distance of the end is shortest at the moment it is popped |
| FindPath.Exhausted | track_graph.cpp:58-95 | With the heap empty, the end has a shortest distance if it has one, and is unreachable if not |
| FindPath.StepBack | track_graph.cpp:105-117 | Following `prev` goes to a node finalised earlier, over a reversal on a sensor or over the edge whose length was added: why reconstruction ends although some arcs cost nothing |
| FindPath.ProgressTurns | track_graph.cpp:106-110 | Closing a segment at a reversal keeps the rebuilt part a measured plan for a route that was finalised in order |
| FindPath.ProgressAdvances | track_graph.cpp:111-116 | Adding an edge to the current segment does too |
| FindPath.Reconstruct | track_graph.cpp:97-121 | What is rebuilt is a route from start to end, its segments' lengths add up to the distance found |
| FindPath.OffsetsOk | track_graph.cpp:123-124 | The two offsets change only the first and last distance |
| TrackGraph.GetSwitchDir | track_graph.cpp:140-142 | Straight or curved; the edge of that direction leads to the node asked for, if any edge does, and it is straight if the straight edge leads there |
| TrackGraph.SensorsNumberedApart | track_new.cpp:14-29 | There is a well-formed layout with a switch and a sensor whose two sides have the numbers 0 and 1 |
| Walks.NextSensor | track_graph.cpp:6-31 | Terminates on every layout, with the sensor and distance that following the switches gives |
| Walks.NextIsFirstSensorAhead | track_graph.cpp:6-31 | A sensor and a distance are the answer if and only if some walk led by the switches meets that sensor first, at that distance |
| Walks.NextProgress | track_graph.cpp:6-31 | The answer is a sensor, some way ahead when asked at a sensor: why walks over sensors end |
| Walks.WalkSensor | track_graph.cpp:144-159 | Terminates with the free walk |
| Walks.FreeWalkStops | track_graph.cpp:144-159 | The free walk goes from each sensor to the next and ends at the first that covers the distance, or where there is no next |
| Walks.PathLeads | track_graph.cpp:161-198 | On a path whose branches before its next sensor are set its way, the next sensor after a node is that one, as far ahead as the path says; other switches do not matter |
| Walks.WalkPath | track_graph.cpp:169-187 | The loop over the path takes its sensors in order, up to the first that covers the distance |
| Walks.WalkSensorOnPath | track_graph.cpp:161-198 | The path's sensors, then the free walk from the last of them; and the same sequence as the free walk from the start whenever the branches ahead are set as the path goes |
| Reversal.LedBack | traffic.cpp:79-85 | The switches, as they are on the way back, lead a train that turned round back over the nodes it came by, if and only if every merge passed has its paired switch set back |
| Reversal.NextBack | traffic.cpp:79-85 | If the next sensor after A is B at distance d, and later the merges are set back, then the next after B's reverse is A's reverse at d |
| Reversal.BackOdometer | traffic.cpp:79-85 | Positions along the way back are the whole less the positions along the way there |
| Containers.LinkPool.Push | generic/containers.hpp:187-190 | Through the one shared link, the element is behind all others of the queue; every other queue is as it was, provided the element was in none |
| Containers.LinkPool.Pop | generic/containers.hpp:192-197 | The first element leaves its queue, and every other queue is as it was |
| Containers.PriorityQueue.Push | generic/containers.hpp:129-135 | In the one order the levels stand for, the element is behind everything at least as urgent and before everything less so; the counter is the sum over the levels |
| Containers.PriorityQueue.FrontTuple | generic/containers.hpp:141-153 | The first of the highest level that is not empty is the first of the whole order, and the scan never falls through |
| Containers.PriorityQueue.Pop | generic/containers.hpp:159-164 | Removes the first of the whole order |
| Containers.OrderPush | generic/containers.hpp:129-135 | Putting an element behind its level puts it at that place of the whole order |
| Containers.OrderPop | generic/containers.hpp:141-164 | Taking the first of the highest level takes the first of all |
| Containers.TotalIsLength | generic/containers.hpp:122-168 | The levels' sizes add up to the length of the whole order |
| Containers.WaitBound | kern/tasking.cpp:59-66 | A task with k ahead of it in its level is the one dispatched after k others, whatever arrives, while nothing more urgent is ready |
| KernelRuns.RunsAfter | kern/tasking.cpp:59-66 | In the kernel: a ready task with k ahead of it in its level is the one that runs after k turns of the loop, whatever those turns did, if nothing more urgent was ready at any of them |
| KernelRuns.TurnReady | kmain.cpp:56-182 | A turn takes the task it runs off its ready queue and otherwise only adds to the ends of ready queues, whatever is called or interrupts it |
| Kernel.TaskManager.constructor | kern/tasking.hpp:45-90 | All slots are on the free list in order, and the invariant holds |
| Kernel.TaskManager.FillFreeList | generic/containers.hpp:31-36 | Every slot is on the free list, once, in order |
| Kernel.TaskManager.Allocate | kern/tasking.cpp:41-57 | The first free slot starts a new life: id slot + 2, next generation, its creator remembered |
| Kernel.TaskManager.StartFirstTask | kmain.cpp:45-49 | The kernel's own child is the one ready task, and the invariant holds |
| Kernel.TaskManager.GetTask | kern/tasking.cpp:59-61 | The first ready task becomes current; false only if none is ready |
| Kernel.TaskManager.KCreate | kern/tasking.cpp:68-96 | A bad priority and a full table are refused and change nothing else; otherwise caller and then child are ready, and the caller has the child's id |
| Kernel.TaskManager.KMyTid | kern/tasking.cpp:98-101 | The caller has its id and is ready |
| Kernel.TaskManager.KMyParentTid | kern/tasking.cpp:103-119 | The caller has its parent's id, with the exited bit as `ParentTruth` says |
| Kernel.TaskManager.KYield | kern/tasking.cpp:121-123 | The caller is ready, behind its level |
| Kernel.TaskManager.KExit | kern/tasking.cpp:125-129 | The caller's slot is free and last on the free list, its life over; what that means for other tasks and for later turns is `KernelLives.ExitEnds` and `KernelLives.ExitIsForGood` |
| Kernel.TaskManager.Deliver | kern/tasking.cpp:10-24 | The receiver has the message, its length and the sender's id; the sender waits for a reply |
| Kernel.TaskManager.KSend | kern/tasking.cpp:131-157 | Oneself and dead tasks are refused; a waiting receiver gets the message and is ready; otherwise the sender is last in the mailbox |
| Kernel.TaskManager.KReceive | kern/tasking.cpp:159-168 | The first of the mailbox is received, or the caller waits |
| Kernel.TaskManager.DeliverReply | kern/tasking.cpp:26-38 | Both have the number of bytes copied, the shorter of the two lengths |
| Kernel.TaskManager.KReply | kern/tasking.cpp:170-189 | Only a task that waits for a reply gets one; sender and then replier are ready |
| Kernel.TaskManager.KAwaitEvent | kern/tasking.cpp:191-228 | The caller waits on the queue of the event it names, its tag unchanged; an unknown event is refused (`KernelLives.AwaitEventWaits`) |
| Kernel.TaskManager.WakeUpTasksOnEvent | kern/tasking.cpp:230-241 | Every waiter of the event has the value and is ready, in the order they came |
| Kernel.TaskManager.Handle | kmain.cpp:73-181 | What the running task asks for is what is served, and the invariant holds again |
| Kernel.TaskManager.Loop | kmain.cpp:56-182 | The loop is the run of its inputs, and stops when nothing is ready |
| KernelSafety.BootKeeps | kmain.cpp:45-49 | The invariant holds after boot |
| KernelSafety.DispatchKeeps | kmain.cpp:56-57 | Dispatching keeps the invariant |
| KernelSafety.CreateKeeps | kern/tasking.cpp:68-96 | So does creating a task, refused or not |
| KernelSafety.ExitKeeps | kern/tasking.cpp:125-129 | So does exiting, whatever the exiting task's mailbox holds |
| KernelSafety.SendKeeps | kern/tasking.cpp:131-157 | So does sending |
| KernelSafety.ReceiveKeeps | kern/tasking.cpp:159-168 | So does receiving |
| KernelSafety.ReplyKeeps | kern/tasking.cpp:170-189 | So does replying, by whichever task |
| KernelSafety.AwaitEventKeeps | kern/tasking.cpp:191-228 | So does waiting for an event |
| KernelSafety.MyParentTidKeeps | kern/tasking.cpp:103-119 | So does asking for the parent, whose slot always exists |
| KernelSafety.WakeAllKeeps | kern/kernel.cpp:19-56 | So does an interrupt, after which no task waits for its event |
| KernelSafety.TurnLater | kmain.cpp:56-182 | One turn of the loop only adds to what was sent, received, replied, exited and created |
| KernelSafety.SafeOnEveryRun | kmain.cpp:56-182 | Over any run of calls and interrupts the invariant holds and history only grows |
| KernelRuns.TurnSends | kmain.cpp:56-182 | Only the task a turn runs can send in it |
| KernelRuns.WaitingDoesNotSend | kern/tasking.cpp:131-168 | A task that has sent and is not answered does not send in the next turn |
| KernelRuns.SilentUntilAnswered | kern/tasking.cpp:131-189 | Nor in any run in which it gets no reply, at the end of which it still waits |
| KernelSafety.ExclusiveOwnership | kern/tasking.hpp:79-88 | Each slot is in exactly one of free list, a ready queue, a mailbox, an event queue, waiting to receive, waiting for a reply, running; and no queue repeats a slot |
| KernelSafety.ParentTruth | kern/tasking.cpp:103-119 | Serving `MyParentTid` sets the exited bit if and only if the very incarnation that created the caller has exited, however often slots were reused |
| KernelSafety.MessagesSafe | kern/tasking.cpp:131-189 | No task waits to receive while its mailbox holds something; what a slot received is a prefix of what was sent to it; every accepted send has had one reply, but for the one its sender waits on |
| KernelSafety.SendDelivered | kern/tasking.cpp:10-24 | At any address, after a direct send: the receiver's buffer has the whole message, its id cell the sender's id, nothing else changed; the reported length is within the receiver's room if and only if the message is |
| KernelSafety.ReceiveDelivered | kern/tasking.cpp:159-165 | The same, for a message taken from the mailbox |
| KernelRuns.SendWrites | kern/tasking.cpp:10-24 | The bytes a send changes are those of the id cell and as many from the receiver's buffer on as the message is long; they are inside the buffer if the message is no longer than it |
| KernelRuns.MessageOverruns | kern/tasking.cpp:17-20 | A run from boot after which a send of one byte to a task with no room for any changes the byte at which its buffer would begin |
| KernelSafety.ReplyDelivered | kern/tasking.cpp:26-38 | At any address: the sender's buffer has the prefix of the reply that fits, nothing else changed, and both know its length |
| KernelSafety.ReplyRefused | kern/tasking.cpp:170-184 | A reply to a task that does not wait for one changes only the caller's result |
| KernelCalls.SlotFinds | generic/containers.hpp:81-86 | The arithmetic on a task id finds the live task with that id if and only if there is one, for every 64-bit register value |
| KernelCalls.SendRefused | kern/tasking.cpp:131-147 | A send to oneself gives -2, and one to an id that no live task has gives -1; nothing else changes |
| KernelCalls.SendReceived | kern/tasking.cpp:149-153 | A send to a task that waits for a message makes it ready, last of its level, and leaves the sender waiting for the reply |
| KernelCalls.SendQueued | kern/tasking.cpp:155-156 | A send to any other live task leaves the sender last in its mailbox; no other task changes or moves |
| KernelCalls.ReplyOrder | kern/tasking.cpp:186-188 | The task answered becomes ready before the one that answers |
| KernelCalls.CreateRefused | kern/tasking.cpp:72-85 | A task is created exactly if the priority is one and there is a dead slot; otherwise -1 or -2 and nothing else changes |
| KernelCalls.CreateAccepted | kern/tasking.cpp:86-96 | The child lives in a slot that was dead, as a life that has not exited, created by the caller, with the priority and entry point asked for; the caller has its id and is ready before it |
| KernelCalls.WakeOrder | kern/tasking.cpp:230-241 | An interrupt puts the tasks waiting for it behind the ready tasks of their level, in the order they came |
| KernelCalls.WakeResults | kern/tasking.cpp:236-240 | Exactly the tasks waiting for it get its value |
| KernelRuns.Booted | kmain.cpp:45-49 | The first task is the one ready task, a child of the kernel with the entry point it was given |
| KernelLives.MyTidReturns | kern/tasking.cpp:98-101 | The caller gets the number of its slot plus two, and is ready last of its level; nothing else changes |
| KernelLives.OtherReturns | kern/tasking.cpp:121-123 | A call without a result, and an interrupt that wakes nobody, leave the caller's registers alone and put it last of its level; nothing else changes |
| KernelLives.ReceiveWaits | kern/tasking.cpp:159-168 | With an empty mailbox the caller waits for a message, and nothing else changes |
| KernelLives.ReceiveTakes | kern/tasking.cpp:159-165 | Otherwise the first of the mailbox leaves it and awaits the reply, and the caller is ready |
| KernelLives.InterruptOrder | kmain.cpp:150-154 | The interrupted task is ready behind the tasks the interrupt woke, in every level |
| KernelLives.ServeLeaves | kern/tasking.cpp:68-241 | Whatever is asked for, a task that is ready, dead or waits for an event is not touched, unless it is the slot a new task is given or its event comes |
| KernelLives.AwaitEventWaits | kern/tasking.cpp:191-228 | The caller is the last to wait for the very event it names, and no other task, queue or memory changes; an event that does not exist is refused with -1 |
| KernelLives.StaysOnEvent | kern/tasking.cpp:230-241 | A turn that does not wake the event leaves who waits for it waiting, unchanged |
| KernelLives.WaitsOnEvent | kmain.cpp:56-182 | And so does any run without that event, whatever other events come |
| KernelLives.WokenTurn | kern/tasking.cpp:230-241 | A turn that wakes the event leaves who waits for it ready in its level, with the event's value and its other registers as they were |
| KernelLives.AwaitedAndWoken | kern/tasking.cpp:191-241 | From the call over any run to the event: the task that asked waits throughout, and when its event comes it is ready and has the value |
| KernelLives.ExitEnds | kern/tasking.cpp:125-129 | The caller's incarnation, which had not exited, has; its slot is free and last on the free list; no other task, mailbox, queue or memory changes |
| KernelLives.GoneUntilReused | kern/tasking.cpp:41-61 | Over any run that does not give a dead slot a new life, no turn dispatches it and it stays dead |
| KernelLives.OrphanIsTold | kern/tasking.cpp:103-119 | After any run, a task whose creator has exited and that asks for its parent gets the id with the exited bit |
| KernelLives.ExitIsForGood | kern/tasking.cpp:125-129 | A task that exits in a turn has exited in every state after it, and is not dispatched by any turn of any run until its slot has a new life |
| DriverSafety.StepKeeps | traffic_mini_driver.cpp:147-345 | Every step of a driver keeps its indices usable, its demands what the segment ahead needs, and its memory of locks equal to the locks; it takes only free locks and gives back only its own; and the index moves as `IndexMoves` says |
| DriverSafety.PerformKeeps | traffic_mini_driver.cpp:147-288 | The same for `perform` in each of the twelve modes, with the switch commands sent all wanted by the segment ahead; within a segment the index only grows, to sensors, and it is 0 again only at the next segment of the same plan or with a new plan |
| DriverSafety.AdvanceKeeps | traffic_mini_driver.cpp:76-99 | Passing a sensor gives back the old locks before it demands what lies ahead |
| DriverSafety.SwitchKeeps | traffic_mini_driver.cpp:55-65 | Setting what is demanded keeps the driver's memory equal to the locks, with one command per lock taken |
| DriverSafety.UnlockedKeeps | traffic_mini_driver.cpp:67-74 | Unlocking leaves the driver no lock and no demand |
| DriverSafety.TurnedBackKeeps | traffic_mini_driver.cpp:336-345 | Turning back holds no lock while it waits |
| DriverSafety.ResetKeeps | traffic_mini_driver.hpp:76-83 | Nor does a driver that was reset |
| DriverSafety.MoveKeeps | traffic.cpp:304-308 | A step of one train keeps what holds of every other train |
| DriverSafety.LocksNeverLeak | traffic_mini_driver.cpp:35-99 | However the trains' steps interleave: a lock names a train if and only if its driver remembers setting that switch; drivers that think, start a segment or wait to reverse hold none; each tenure of each lock saw exactly one command. Every driver has a path unless it thinks or waits to turn back, none when it thinks, and with a path its indices are inside it, the inner one 0 or at a sensor |
| DriverSafety.IndicesOnlyGrow | traffic_mini_driver.hpp:31-34 | At every turn of every run: within a segment the moving train's index only grows; it starts again at 0 with the next segment of the same plan, or when a driver that waited to turn back plans anew; no other train's index moves |
| DriverSafety.FleetStarts | traffic.cpp:16-27 | All of this holds at the start |
| DriverSteps.DemandsExactly | traffic_mini_driver.cpp:35-53 | A switch is demanded if and only if the segment passes it ahead, it is set otherwise, and at most one sensor (none, if the train is fast) comes before it |
| DriverSteps.DemandsFrom | traffic_mini_driver.cpp:35-53 | Every demand is for a branch of the segment ahead, in the direction the path takes it |
| DriverBehaviour.SwitchMeets | traffic_mini_driver.cpp:55-65 | A demand whose lock is free, the first for its switch, is met: the lock names the train, the switch was sent the very command demanded, and the demand remembers it; every other demand is as it was |
| DriverBehaviour.SwitchLeavesNoneFree | traffic_mini_driver.cpp:55-65 | Afterwards nothing still demanded is free |
| DriverBehaviour.AdvanceDoes | traffic_mini_driver.cpp:76-99 | A train off its path is given up, with its locks. At another sensor of the path the index is the next sensor's, the locks held before are given back, and exactly the branches set against the path up to the second sensor ahead (the first, if the train is fast) are held or demanded; otherwise nothing changes |
| DriverBehaviour.StartsSegment | traffic_mini_driver.cpp:150-165 | A segment is started with the braking distance of its speed, the branches ahead held or demanded, and nothing demanded that is free |
| DriverBehaviour.RunsOrBrakes | traffic_mini_driver.cpp:167-176 | A running train brakes exactly when what is left of the segment is no more than its braking distance, goes along the segment, and leaves nothing free that it demands |
| DriverBehaviour.BrakesAlong | traffic_mini_driver.cpp:178-182 | A braking train goes along the segment too, until it stands |
| DriverBehaviour.StopsWhere | traffic_mini_driver.cpp:183-209 | Exactly when a train that has stopped is to run up to its sensor, to reverse onto it, or is done with the segment |
| DriverBehaviour.FixesPosition | traffic_mini_driver.cpp:243-264 | Running up to a sensor, or back onto it, ends when the train sits on it; a train that ran back turns round again |
| DriverBehaviour.EndsSegment | traffic_mini_driver.cpp:212-232 | At the end of a segment no lock is held; after the last there is no path, otherwise the train waits to reverse at the start of the next |
| DriverBehaviour.WaitsItsTime | traffic_mini_driver.cpp:234-271 | A driver that begins to wait waits exactly six steps, whatever it sees, and then goes on as its mode says; nothing else changes |
| DriverBehaviour.WaitsToPlan | traffic_mini_driver.cpp:277-283 | A driver that is to turn back waits as long and then has a plan to the same destination, at its start; or none, and tries again |
| DriverBehaviour.InterruptedThenCleared | traffic_mini_driver.cpp:290-334 | A running train that is stopped and then cleared is as it was, but for its braking distance; in between it does nothing but brake |
| DriverBehaviour.InterruptsOnlyRunning | traffic_mini_driver.cpp:290-334 | At another speed only the braking distance changes; a train that stands or is not running is neither interrupted nor cleared |
| DriverBehaviour.TurnsBack | traffic_mini_driver.cpp:336-345 | A train stuck in its path gives up all its locks at once, holds none for six steps, and then plans anew to its destination; no other train turns back |
| DriverBehaviour.ResetClears | traffic_mini_driver.hpp:76-83 | A reset driver has no path, no destination, no demand and no lock, and its indices and braking distance are nought |
| DriverBehaviour.CorrectsDistance | traffic.cpp:216-220 | A correction changes the distance left of the current segment and nothing else |
| DriverBehaviour.GoesTo | traffic_mini_driver.cpp:117-145 | A destination is planned for unless there is a path already; a plan found starts at its first node |
| DriverBehaviour.StepMinds | traffic_mini_driver.cpp:35-99 | Short of its next sensor no step of a driver under way forgets a demand that is not met |
| DriverBehaviour.BranchesAreMinded | traffic_mini_driver.cpp:35-99 | Over any interleaving of all drivers: a branch that was set against a train's path when its driver started the segment or last went on to a sensor of it is, until it looks again or the segment ends, held by that train or still demanded in that direction |
| DriverBehaviour.NothingFreeIsLeft | traffic_mini_driver.cpp:150-176 | And whenever a driver that starts or runs has performed, nothing it still demands is free |
| MiniDriver.SwitchBoard.constructor | traffic.cpp:22-25 | No switch is locked |
| MiniDriver.SwitchBoard.LockAndSet | traffic_mini_driver.cpp:61-62 | The train holds the switch and one command was sent |
| MiniDriver.MiniDriver.GetSwitchDemands | traffic_mini_driver.cpp:35-53 | The loop appends the demands of the segment ahead |
| MiniDriver.MiniDriver.TrySwitchOnDemand | traffic_mini_driver.cpp:55-65 | The loop takes every free lock demanded and marks the demand as met, as `DriverBehaviour.SwitchMeets` says demand by demand |
| MiniDriver.MiniDriver.UnlockMySwitches | traffic_mini_driver.cpp:67-74 | The loop gives back every lock the driver holds among its demands, and forgets them |
| MiniDriver.MiniDriver.TryAdvancePathSensor | traffic_mini_driver.cpp:76-99 | At a new sensor, the index moves to the path's next one, or the driver gives up if the train is off its path |
| MiniDriver.MiniDriver.GetPath | traffic_mini_driver.cpp:117-145 | A plan starts at its beginning; without one there is no path and the mode stays |
| MiniDriver.MiniDriver.PerformAction | traffic_mini_driver.cpp:147-288 | Every mode's action and next mode |
| MiniDriver.MiniDriver.FinishSegment | traffic_mini_driver.cpp:183-209 | What a stopped train does about where it stands |
| MiniDriver.MiniDriver.EndOfSegment | traffic_mini_driver.cpp:212-232 | Locks are given back; the next segment is next, or the path is done |
| MiniDriver.MiniDriver.InterruptPath | traffic_mini_driver.cpp:290-315 | Reports whether the train was moving; only a running segment is interrupted |
| MiniDriver.MiniDriver.InterruptPathClear | traffic_mini_driver.cpp:317-334 | Only a running or interrupted segment is resumed, and the result says whether one was |
| MiniDriver.MiniDriver.GetReversedPath | traffic_mini_driver.cpp:336-345 | Only a train stuck in a path turns back, and it gives back its locks first; the result says whether it was stuck |
| MiniDriver.MiniDriver.Reset | traffic_mini_driver.hpp:76-83 | No path, no demand, no lock of its own among those demanded |
| DeadReckoning.TrainTracker.HandlePosInit | traffic.cpp:310-322 | The train is where it is said to be, both snapshots |
| DeadReckoning.TrainTracker.HandlePredict | traffic.cpp:243-293 | The offset grows, or shrinks while approaching, and the driver's distance shrinks, by the predicted distance |
| DeadReckoning.TrainTracker.AdjustFromSensor | traffic.cpp:140-241 | The read is taken as one of five readings of where the train was last seen; reports whether it said something |
| DeadReckoning.TrainTracker.HandleSpeedCmd | traffic.cpp:55-110 | A repeated command is ignored; a reversal re-bases the train in one of three ways, which `DeadReckoning.ReversesOnce` states |
| DeadReckoning.DeltaExact | traffic.cpp:213-219 | The error added to the driver's distance is exact if and only if it fits 24 bits |
| DeadReckoning.StaysPlaced | traffic.cpp:144-156 | The two snapshots of a train are always of the same node |
| DeadReckoning.SitsFor | traffic.cpp:244-244 | A train sits on its sensor exactly while the sensor was read less than 20 ticks ago, also when the tick has wrapped around since |
| DeadReckoning.PredictedMoves | traffic.cpp:243-293 | A prediction moves the offset in the direction of travel and takes as much off the driver's distance; nothing else changes but whether the train sits |
| DeadReckoning.SpeedSetPredicts | traffic.cpp:55-110 | A new speed that does not reverse the train is a prediction and the command; a repeated one nothing, one to an unknown train the command alone |
| DeadReckoning.ReversesOnce | traffic.cpp:69-92 | A single reversal, after the prediction that comes first: on a sensor the train is on its other side, as far the other way; between sensors past the other side of the one ahead, by what it was short of it; at the end of the track where it was, coming the other way. The driver's distance changes by the prediction alone |
| DeadReckoning.ReadPuts | traffic.cpp:140-241 | Where each of the five readings of a sensor puts the train, and that only the expected one changes the driver's distance |
| DeadReckoning.ReadingByWalks | traffic.cpp:193-199 | A sensor is expected if and only if the switches lead there first, that far ahead; and the train has misbranched if and only if they do not, but lead back from it to the last sensor |
| DeadReckoning.SwitchThrown | traffic.cpp:112-119 | Throwing a switch sets that switch and moves no train |
| DeadReckoning.BalanceLaw | traffic.cpp:140-293 | Short of a reversal, an event keeps distance left + offset + confirmed track if and only if it is steady, which is a condition on the event, and on the train and the switches before it |
| DeadReckoning.ErrorsCancel | traffic.cpp:112-293 | Over any steady run of predictions, sensor reads, speed commands and switches thrown, that sum is constant |
| DeadReckoning.CourseStep | traffic.cpp:213-220 | An expected sensor, read when the branches up to the segment's next sensor are set, is that sensor, and the driver's distance is then exact; anything else that happens keeps the train on course |
| DeadReckoning.StaysOnCourse | traffic.cpp:112-293 | Over any run along a segment, with switches thrown at any time, the driver's distance is right but for what was predicted since the last sensor |
| DeadReckoning.ExactAtSensors | traffic.cpp:213-241 | After any such run, an expected sensor, read when the branches up to it are set, is the segment's next one and leaves the driver's distance exactly the length beyond that sensor; branches further on need not be set, nor those up to it any earlier |
| DeadReckoning.PlanSetsCourse | traffic_mini_driver.cpp:117-145 | A train at the first node of a segment of a plan, with the distance the planner gave the segment, is on course for the length of the segment's walk plus, on the last segment, the end offset |
| DeadReckoning.ExactAtTheEnd | traffic.cpp:213-241 | So whatever happened on the way, reading the last sensor of a planned segment leaves the driver nothing to go, or on the last segment exactly the end offset |
| DeadReckoning.OdometerOfLast | track_graph.cpp:103-118 | The length of a walk is how far along it its last node is |
| DeadReckoning.StaysThere | traffic.cpp:243-293 | Over any run that does not move the train to another sensor, its offset changes by what was predicted, in its direction of travel |
| DeadReckoning.ThereAndBack | traffic.cpp:69-92 | Turning round twice, with any such run between in which another speed command is given, puts the train back where it was but for how far it was predicted to go forth and back: on a sensor, between sensors if at the second reversal the way back is set, and at the end of the track |
| ClockServer.Server.HandleTime | kern/servers.cpp:181-187 | The client is told the current tick |
| ClockServer.Server.HandleDelay | kern/servers.cpp:188-199 | Due that many ticks from now; answered at once if none |
| ClockServer.Server.HandleDelayUntil | kern/servers.cpp:200-214 | Due when the tick next reads the given value, if within half its range ahead; refused before |
| ClockServer.Server.TickClient | kern/servers.cpp:221-232 | A pending countdown goes down by one, and its client is answered when it reaches zero |
| ClockServer.Server.TickAll | kern/servers.cpp:221-232 | The loop takes every countdown down once and answers exactly those at one |
| ClockServer.Server.HandleNotify | kern/servers.cpp:215-234 | Exactly the clients due now are answered, with this tick, in whatever order the map holds them |
| ClockServer.Server.Handle | kern/servers.cpp:177-237 | Each message does what it says: a delay is noted with the time it is due at, a time told, a past deadline refused, an unknown message ignored; a tick answers exactly those who wait for it. Countdowns stay equal to absolute deadlines |
| ClockServer.ServedSound | kern/servers.cpp:177-237 | Every message leaves everybody answered rightly and nobody overdue |
| ClockServer.DelayIsKept | kern/servers.cpp:188-234 | For any sequence of messages after it: who asks for a delay of n at time t sees nothing while fewer than n ticks have passed, and once they have, its next event is the answer, at the time t + n, which it reads |
| ClockServer.AnswerMatches | kern/servers.cpp:188-234 | In the history of a server, every answer is to the client's last request, at the very time it was due, and there is none in between |
| ClockServer.FateOf | kern/servers.cpp:188-234 | After a request the client's next event is its answer, at the time it is due and with that tick, or the client still waits for it |
| ClockServer.DueIsAnswered | kern/servers.cpp:215-234 | A request whose time has come has been answered, at that time, by the client's very next event, hence once |
| ClockServer.Server.OwesNothing | kern/servers.cpp:177-237 | So in any state of the server |
| ClockServer.NeverLate | kern/servers.cpp:164-238 | A client still waiting is due later than now |
| ClockServer.DueReads | kern/servers.cpp:200-203 | The signed 32-bit difference leads to a time at which the wrapped tick reads the value asked for |
| MatchServer.FairGame | kern/servers.cpp:50-61 | Paper beats rock, scissors paper and rock scissors; only equal moves tie; each player of a round sees its result from the other side |
| MatchServer.Server.MatchPlayers | kern/servers.cpp:80-91 | The two first in the queue are paired and asked to move |
| MatchServer.Server.HandleSignup | kern/servers.cpp:97-105 | A matched client is refused; otherwise it waits, or it and the one that waits are paired |
| MatchServer.Server.HandleMove | kern/servers.cpp:107-120 | Without a match, abandoned; otherwise the client waits until the opponent has moved, and then both get their side of the result |
| MatchServer.Server.HandleQuit | kern/servers.cpp:122-136 | The pair is gone; the client is answered, and so is the opponent exactly if it waits |
| MatchServer.Server.FinishRound | kern/servers.cpp:145-159 | Complementary results to both, and both are to move again |
| MatchServer.Server.PlayRounds | kern/servers.cpp:140-160 | In whatever order the loop meets the pairs, one round is played if the client's pair is done, and none otherwise; no finished round is left |
| MatchServer.Server.Handle | kern/servers.cpp:78-161 | Each message does what it says of it; any message keeps the pairing symmetric, each request answered at most once, and a client waiting exactly if it is queued, has a move in, or sent what the server does not know |
| MatchServer.NextRoundOk | kern/servers.cpp:159-159 | A new round changes two players and keeps the pairing |
| MatchServer.OneRoundSettles | kern/servers.cpp:140-160 | Playing the only finished pair leaves none finished |
| Terminal.TxServer.TryWrite | kern/gtkterm.cpp:86-102 | Bytes written and queued are the same bytes in the same order; as many are written as there are and the level allows |
| Terminal.TxServer.HandleNotifier | kern/gtkterm.cpp:109-122 | As many bytes are written as are queued and the level allows; the notifier is left unanswered exactly if nothing is queued then |
| Terminal.TxServer.HandlePut | kern/gtkterm.cpp:123-145 | Written and queued bytes are what was accepted, as many written as are queued and the level allows; a parked notifier is answered if bytes remain |
| Terminal.RxServer.Serve | kern/gtkterm.cpp:49-53 | Requests and bytes are paired in order until one side runs out |
| Terminal.RxServer.ReadAll | kern/gtkterm.cpp:44-48 | Every byte the receiver holds is queued, in order, behind those that came before |
| Terminal.RxServer.HandleNotifier | kern/gtkterm.cpp:43-60 | The i-th request gets the i-th byte; the notifier is left unanswered exactly if nobody waits |
| Terminal.RxServer.HandleGetc | kern/gtkterm.cpp:61-72 | The i-th request gets the i-th byte; somebody who waits means a notifier that is not parked |
| Memcpy.CopyBytes | kern/rpi.cpp:355-355 | The byte loop |
| Memcpy.CopyWords | kern/rpi.cpp:370-376 | As many whole words as fit, each read and written at a multiple of eight |
| Memcpy.Memcpy | kern/rpi.cpp:342-382 | For regions that do not overlap, of any length and alignment, the memory copying byte by byte leaves |
| Memcpy.CopiedBytes | kern/rpi.cpp:342-382 | Which is: each byte of the destination is the source's, every other byte is as it was |

## Left out

- Registers of the hardware (UART, SPI, GPIO, interrupt controller, timer), caches, context
  switching and boot: what they read is a parameter, and a running task may leave any
  registers and any memory behind. Interrupt enables of the UART channels are not modelled.
- The user interface, the command parser, notices, the name server, the couriers and the
  benchmarks: plumbing around what is modelled here.
- The internals of the embedded template library's queue, heap and maps. The intrusive queue
  is written out in `LinkPool`; the heap is a multiset; an unordered map is a map, and where
  a loop runs over one its order is a parameter.
- Fixed capacities that the code does not guarantee: four segments to a path, 72 nodes to a
  segment, four switch demands, two waiting players, the terminal's queues. Only the heap's
  capacity is proved.
- Overflow of 32-bit distances and positions, except in the fixed-point error a sensor reveals.
  Generations are unbounded.
- Speeds: what a prediction works out, braking distances and whether a train stands are
  parameters. The corrections of speed at a sensor and the speed commands of a driver are not
  modelled.
- The track and speed tables: the model holds for any track that satisfies `WellFormed`.
- Collision avoidance: what it asks of a driver may happen at any step.
- Removing a train, and several trains in one sensor read: each train is handled by itself.
- Overlapping buffers in a message or in `memcpy`, which the source's `__restrict__` excludes:
  the kernel model copies from memory as it was before.
- What a task that exits leaves in its mailbox stays there for the slot's next life, as in the
  code; order is promised per slot, not per life of a task.
- The time accounting of the dispatch loop and the terminating calls.
- Liveness, such as that a ready task is dispatched at all or an event ever comes: only the
  order of dispatching, and what happens when the event comes.
- Terminal.RxServer.HandleNotifier: the bytes read from the receiver come in as one parameter.
- MatchServer.Server.Handle: the loop over all matches is run only after a move; after any other message the invariant says that it finds nothing to do.
