# PingPongOS, modelled and proved in Dafny

PingPongOS is a small user-level operating system: tasks on intrusive circular lists, a
priority scheduler with aging, sleeping and joining, counting semaphores, a bounded message
queue made of three semaphores, and an asynchronous disk served by a driver task. Beside it
stand two small semaphore protocols, a reusable barrier and a turn-taking game. This project
models them and proves what they are for, over every run and every interleaving.

Check everything with `dafny verify dfyconfig.toml`.

## Layers

| files | what they hold |
|---|---|
| `Sequences.dfy` | facts about sequences |
| `Queue.dfy` | the intrusive ring of `core/queue.c` as linked heap nodes, proved against sequences |
| `KernelSpec.dfy` | the kernel of `core/ppos_core.c` as functions on a value: rings, task records, semaphores, clock |
| `Kernel.dfy` | the kernel in place: a class over linked task descriptors; every call is proved to change the state exactly as `KernelSpec` says |
| `KernelRings.dfy`, `KernelRuns.dfy`, `KernelTheorems.dfy` | the kernel invariant over all runs; census, joining, sleeping, time slices |
| `Fairness.dfy`, `RoundRobin.dfy` | no starvation; equals are served in turn |
| `KernelEffects.dfy`, `KernelHistories.dfy` | every kernel step described a second time, field by field; priorities, ids, activations, time slices and sleeping in terms of the calls made |
| `Semaphores.dfy`, `KernelSemaphores.dfy` | laws of counting semaphores over all call histories, and the kernel's semaphores as instances |
| `MessageQueue.dfy`, `MessageQueueTheorems.dfy`, `MessageQueueHistory.dfy`, `MessageQueueHeap.dfy` | the message queue as a step system, its theorems, what its callers are given and get, and the queue in place over the linked buffer |
| `KernelMessages.dfy` | kernel and message queue together: the queue's semaphores are the kernel's |
| `DiskDevice.dfy` | the simulated device of `core/disk/disk.c`, as a value and in place |
| `DiskSpec.dfy`, `DiskRuns.dfy`, `DiskRefusals.dfy` | the disk manager of `core/ppos_disk.c` as a step system, its refinement of a sequential disk, and what bad requests do to it |
| `KernelDisk.dfy`, `DiskService.dfy`, `DiskManager.dfy` | kernel and manager together, as a value and in place, and how soon the driver runs |
| `Accounting.dfy` | the dispatcher's charging of processor time |
| `Barrier.dfy`, `Robots.dfy` | `coordination/barrier.c` and `coordination/robots.c` |

A ring is named by its index: ready, suspended, sleeping, `disk_queue`, then one ring for each
semaphore. A task's ring and its `status` are separate things, as in the source: `task_switch`
marks a task SUSPENDED that is still in the ready ring, and `task_resume` and `task_suspend`
ignore the error codes of the queue calls, so that resuming a ready task moves nothing.

## What a step is

The source runs on one processor with a timer interrupt. These assumptions on where an
interrupt can fall are part of the model.

- Each kernel call, up to and including its switch to the dispatcher, is one step, and so is the
  timer interrupt and one round of the dispatcher up to its switch. The source does not keep its
  semaphore invariant without this: an interrupt between core/ppos_core.c:611 and 615 loses a wake-up.
- In the message queue a task can be interrupted between any two semaphore calls; the check of
  `active` together with the append or removal that follows is one step, and so is `mqueue_destroy`.
- A disk client's part from queueing its request to going to sleep is one step, a turn of the
  driver is one step, and so is a completion: the device's handler, the signal it raises and the
  manager's handler. `sem_disk` is then never contended, its down and up cancel, and it is left out.
- In the barrier every semaphore operation, and the counter's update inside the lock, is one step
  of its thread. In the robots every wait, print and post is one.
- Allocation succeeds. Tasks are created with fresh descriptors, the dispatcher runs only its loop
  and the driver only its own; nobody calls `task_switch` past the dispatcher.
- The next tasks to step, the ticks, the device's random delays and the tasks' own stores to
  memory are chosen freely.

## Where code and comments differ

- core/disk/disk.c:77 promises a delay within the two limits. The random part can exceed the upper one
  (`DelayCanExceedMaximum`), by less than a tenth of the range. It cannot exactly while the distance's
  share of the range leaves room for the greatest random part (`WithinLimitsIff`).
- `sem_down` returns 0 also to a task that `sem_destroy` released (core/ppos_core.c:613-618), so that more
  downs report success than there were units, exactly if somebody was asleep (`DestroyOverpaysIff`).
  Only the recheck of `active` in the message queue turns that into -1.
- A message queue of capacity 0 or below is accepted by `mqueue_init`; a sender and a receiver then wait
  for each other for ever (`NoRoomDeadlocks`). Freedom from deadlock holds exactly from capacity 1 on.
- `disk_block_op` ends with `return 0` whatever becomes of the request (core/ppos_disk.c:202-204), and the
  driver drops the device's refusal. A refused request costs somebody a wake-up, not always its own client:
  the refused one may be woken in the place of a later one, whose transfer is done
  (`WakeUpGoesAstray`), and a valid request behind a refused one may never be served
  (`ValidRequestStranded`). All clients are woken exactly if every request so far was for a block of the
  disk and a real buffer (`AllWokenIffAllFit`).
- A barrier is accepted for any size; below 1 nobody who calls it ever returns (`AllReturnIffAnySize`).
- core/ppos_disk.c:154 speaks of SIGALRM; the handler is installed for SIGUSR1, and modelled so.

## Model

| member | source | states |
|---|---|---|
| `Queues.QueueSize` | core/queue.c:13-32 | Walking the ring counts exactly the elements of the sequence it stands for. |
| `Queues.QueueAppend` | core/queue.c:55-95 | Success exactly for an existing queue and an element whose links are both null; the element is then last and the rest keeps its order. Each error has its own code and changes nothing. |
| `Queues.Append` | core/queue.c:62-94 | The same once the queue variable is known to exist, for an empty and for a non-empty ring. |
| `Queues.QueueRemove` | core/queue.c:97-157 | Success exactly for the elements of this ring: only that element goes, the order stays and its links become null. An unlinked element, one of another ring, a null and an empty queue are told apart by code and change nothing. |
| `Queues.Remove` | core/queue.c:104-156 | The same once the queue variable is known to exist; the element may be linked in any well-formed ring. |
| `Queues.BelongsTo` | core/queue.c:125-133 | The membership walk ends, whichever ring it goes round, and answers yes exactly for members of this queue. |
| `Queues.RingsShareAllOrNothing` | core/queue.c:125-133 | Two well-formed rings that share one node are the same set of nodes, which is why the walk cannot be misled. |
| `Queues.BypassedRing` | core/queue.c:150-154 | Making the two neighbours of a node point past it leaves a well-formed ring of the others, in order. |
| `Queues.Bypass` | core/queue.c:150-154 | The pointer writes that take a node out of a ring of several. |
| `Queues.Unlink` | core/queue.c:135-156 | The ring loses exactly the element, also when it is the head or the only one. |
| `Queues.RemoveFirst` | core/queue.c:97-157 | At the head: the first element goes and the rest stays. |
| `Kernels.Kernel.constructor` | core/ppos_core.c:146-205 | The descriptors of main and dispatcher and the globals have their initial values and every ring is empty. |
| `Kernels.Kernel.PposInit` | core/ppos_core.c:166-169 | The main task is the whole ready ring, is counted, and runs. |
| `Kernels.Kernel.Dequeue` | core/ppos_core.c:529 | queue_remove on a kernel ring with its code ignored: the task leaves that ring if it was in it, and every other ring and record stays. |
| `Kernels.Kernel.Enqueue` | core/ppos_core.c:531 | queue_append on a kernel ring with its code ignored: a task that some ring still holds is not moved. |
| `Kernels.Kernel.TaskSwitch` | core/ppos_core.c:417-434 | The old task is marked SUSPENDED and the new one RUNNING and current; no ring changes. |
| `Kernels.Kernel.TaskYield` | core/ppos_core.c:404-410 | A switch to the dispatcher. |
| `Kernels.Kernel.TaskSuspend` | core/ppos_core.c:518-542 | Over the linked rings: exactly what KernelSpec.TaskSuspend says of the whole kernel. |
| `Kernels.Kernel.TaskResume` | core/ppos_core.c:544-557 | Over the linked rings: exactly what KernelSpec.TaskResume says, including a task that is ready already. |
| `Kernels.Kernel.FindNext` | core/ppos_core.c:224-237 | The scan with the last node treated apart finds the first task of least dynamic priority, or null in an empty ring. |
| `Kernels.Kernel.AgeReady` | core/ppos_core.c:250-260 | Every ready task ages by one step, once, and nothing else changes; nothing happens in an empty ring. |
| `Kernels.Kernel.Scheduler` | core/ppos_core.c:213-276 | The choice, the aging of all and the reset of the chosen one, on the state before the call. |
| `Kernels.Kernel.WakeAll` | core/ppos_core.c:278-311 | The loop whose end is recognised by the ring's prev pointer terminates although it unlinks the nodes it visits, and has the effect of visiting every task of the ring once, in order. The walk of task_exit (core/ppos_core.c:447-462) is the same loop. |
| `Kernels.Kernel.WakeOne` | core/ppos_core.c:291-299 | A due task is resumed (and no longer waits for anybody after an exit); any other is left alone. |
| `Kernels.Kernel.WakeTasks` | core/ppos_core.c:278-311 | The traversal of the sleeping ring at the present clock. |
| `Kernels.Kernel.Activate` | core/ppos_core.c:324-333 | Both activation counters go up and the task starts with a fresh quantum. |
| `Kernels.Kernel.Dispatch` | core/ppos_core.c:315-334 | One round of the dispatcher's loop up to the switch: wake, choose, age, count, switch; nothing but waking when nobody is ready. |
| `Kernels.Kernel.Register` | core/ppos_core.c:374-386 | The descriptor gets the next id and the initial field values. |
| `Kernels.Kernel.TaskInit` | core/ppos_core.c:351-402 | The new task is last in the ready ring and counted, unless its id is that of the disk driver; its id is returned. |
| `Kernels.Kernel.TaskWait` | core/ppos_core.c:559-574 | -1 without effect for a null or terminated target; otherwise the caller is put into the suspended ring waiting for the target's id. |
| `Kernels.Kernel.TaskSleep` | core/ppos_core.c:576-581 | The caller is put into the sleeping ring with its alarm set relative to the clock. |
| `Kernels.Kernel.Retire` | core/ppos_core.c:477-479 | The running task leaves the ready ring and the count, and the dispatcher takes over. |
| `Kernels.Kernel.TaskExit` | core/ppos_core.c:436-484 | Terminated with its code, joiners woken; then the dispatcher's own exit is reported as the end of the program, and any other task is unlinked and uncounted and gives way to the dispatcher. |
| `Kernels.Kernel.Announce` | core/ppos_core.c:438-465 | The part every exit goes through: the record is marked, exactly the joiners of the exiting id are woken, and whether it is the dispatcher's is told by the id. |
| `Kernels.Kernel.SemInit` | core/ppos_core.c:583-598 | A new active semaphore with the given value and an empty queue. |
| `Kernels.Kernel.SemDown` | core/ppos_core.c:600-621 | -1 and no effect on an inactive semaphore; otherwise the value goes down and the caller sleeps exactly when it is then negative; 0 is returned. |
| `Kernels.Kernel.SemUp` | core/ppos_core.c:623-642 | -1 and no effect on an inactive semaphore; otherwise the value goes up and the first sleeper is readied when the value is then not positive. |
| `Kernels.Kernel.SemDestroy` | core/ppos_core.c:644-660 | -1 on an inactive semaphore; otherwise it is inactive and all sleepers are resumed, head first; 0 is returned. |
| `Kernels.Kernel.ReleaseAll` | core/ppos_core.c:654-657 | The loop that resumes the head until the queue is empty terminates and equals the recursive release. |
| `Kernels.Kernel.SetPrio` | core/ppos_core.c:486-498 | Both priorities of the given task, or of the caller for null, become prio itself (`KernelHistories.PriorityIsGiven`), and nothing else changes. |
| `Kernels.Kernel.CountTick` | core/ppos_core.c:108-113 | The clock and the running task's quantum advance; the quantum starts over when used up. |
| `Kernels.Kernel.Tick` | core/ppos_core.c:106-116 | The handler yields exactly when the quantum is used up, which is at the tenth tick (`KernelHistories.TenthTickPreempts`). |
| `KernelRings.MoveOut` | core/ppos_core.c:554-556 | Remove-then-append moves a task to the tail of the other ring if it was in the first one, and does nothing at all to a task linked anywhere else. |
| `KernelRings.MovedMember` | core/ppos_core.c:529-531 | Membership of every task in every ring after such a move. |
| `KernelRings.MoveKeepsPartition` | core/ppos_core.c:529-531 | Such a move keeps the rings disjoint and without repetition, and their total size. |
| `KernelRings.RemoveKeepsPartition` | core/ppos_core.c:477 | Unlinking an exiting task keeps the rings disjoint; exactly that task is missing afterwards. |
| `KernelRings.WakePrefix` | core/ppos_core.c:290-303 | After k steps of a traversal the due ones of the first k tasks stand at the tail of the ready ring in order, the others still stand in front of the unvisited part in order, and only the woken records have changed. |
| `KernelRings.RingDuringWalk` | core/ppos_core.c:290-299 | While tasks are unlinked behind the walker, its next task and the end of the ring stay where the loop expects them. |
| `KernelRings.StablePartition` | core/ppos_core.c:290-303 | Woken and kept tasks together are the traversed ring; woken are exactly the due ones; both halves keep the ring's order. |
| `KernelRuns.MoveIsSteady` | core/ppos_core.c:518-557 | Moving a task between rings changes nobody's membership of the linked tasks and no other task's ring. |
| `KernelRuns.SuspendIsSteady` | core/ppos_core.c:518-542 | Suspending adds only the running task to the target ring and hands over to the dispatcher. |
| `KernelRuns.ResumeIsCalm` | core/ppos_core.c:544-557 | Resuming a live task keeps the census of tasks and makes nobody start to join. |
| `KernelRuns.WakeAllIsCalm` | core/ppos_core.c:290-303 | A whole waking traversal does so too. |
| `KernelRuns.InitKeepsInv` | core/ppos_core.c:374-399 | Creating a task keeps the kernel invariant: fresh id, one ring, one more counted unless it is the driver. |
| `KernelRuns.WaitKeepsInv` | core/ppos_core.c:559-574 | task_wait keeps it: the new joiner waits for a live task. |
| `KernelRuns.SleepKeepsInv` | core/ppos_core.c:576-581 | task_sleep keeps it. |
| `KernelRuns.ExitKeepsInv` | core/ppos_core.c:436-484 | task_exit keeps it: nobody is left waiting for the task that has gone. |
| `KernelRuns.DownKeepsInv` | core/ppos_core.c:600-621 | sem_down keeps it. |
| `KernelRuns.UpKeepsInv` | core/ppos_core.c:623-642 | sem_up keeps it. |
| `KernelRuns.DestroyKeepsInv` | core/ppos_core.c:644-660 | sem_destroy keeps it. |
| `KernelRuns.NewSemKeepsInv` | core/ppos_core.c:583-598 | sem_init keeps it. |
| `KernelRuns.TickKeepsInv` | core/ppos_core.c:106-116 | The timer interrupt keeps it wherever it falls. |
| `KernelRuns.ScheduleKeepsInv` | core/ppos_core.c:315-334 | A round of the dispatcher keeps it. |
| `KernelRuns.StepKeepsInv` | core/ppos_core.c:313-660 | Every kernel call and interrupt keeps the invariant: rings disjoint, exactly the live tasks linked, exact counting, unique ids, the running task in the ready ring, joiners waiting for live tasks. |
| `KernelRuns.BootInv` | core/ppos_core.c:86-104 | It holds when ppos_init returns. |
| `KernelRuns.RunKeepsInv` | core/ppos_core.c:313-660 | It holds in every state of every run. |
| `KernelTheorems.UserTasksExact` | core/ppos_core.c:390-399 | user_tasks_num is exactly the number of live tasks other than dispatcher and driver. |
| `KernelTheorems.LoopEndsWithLastTask` | core/ppos_core.c:315 | The dispatcher's loop condition fails exactly when every user task has terminated. |
| `KernelTheorems.OneRingEach` | core/ppos_core.c:518-557 | In every reachable state a task is linked exactly if it is live, and then at one place of one ring. |
| `KernelTheorems.ScheduleMovesSleepers` | core/ppos_core.c:278-311 | A round of the dispatcher readies exactly the due sleepers, in order and behind those already ready, and keeps the others in order. |
| `KernelTheorems.JoinStep` | core/ppos_core.c:447-462 | The exit of its target readies a joiner; no other step of anybody moves it. |
| `KernelTheorems.ExitMovesJoiner` | core/ppos_core.c:447-462 | task_exit readies exactly those joiners that wait for the exiting id; the others stay. |
| `KernelTheorems.WaitBlocks` | core/ppos_core.c:568-569 | A task_wait on a live task leaves the caller joining it. |
| `KernelTheorems.JoinRun` | core/ppos_core.c:559-574 | At every later point of a run the caller is still joining the live target, or the target has exited since, with the code its descriptor holds. |
| `KernelTheorems.JoinNeverMissed` | core/ppos_core.c:569-573 | A blocked task_wait gets ready again only after its target's exit, and finds in the descriptor the code given to task_exit. |
| `KernelTheorems.JoinersWaitForLiving` | core/ppos_core.c:447-462 | In every reachable state each joiner waits for one live task, never for a terminated one. |
| `KernelTheorems.SleepStep` | core/ppos_core.c:290-303 | A sleeper leaves its ring only in a round of the dispatcher, and only when its time has come. |
| `KernelTheorems.ClockStep` | core/ppos_core.c:108 | Only the timer moves the clock, one tick at a time. |
| `KernelTheorems.NobodyWakesEarly` | core/ppos_core.c:576-581 | In every run a task that slept for d ticks is out of the sleeping ring only when d ticks have passed. |
| `KernelTheorems.NobodyOversleeps` | core/ppos_core.c:290-303 | After a round of the dispatcher nobody is left asleep whose time has come. |
| `KernelTheorems.SliceStep` | core/ppos_core.c:106-116 | While a task keeps the processor its quantum counts the ticks, whatever calls it makes; whoever gets the processor from the dispatcher starts at zero. |
| `KernelTheorems.TimeSlice` | core/ppos_core.c:106-116 | In every run no task keeps the processor for QUANTUM_LIMIT ticks: the tick that would complete them preempts it. |
| `Fairness.ChooseIsFirstLeast` | core/ppos_core.c:224-237 | The scan returns the first of the most urgent tasks: everybody before it is less urgent. |
| `Fairness.ChosenIsLeast` | core/ppos_core.c:224-237 | Nobody ready is more urgent than the task chosen. |
| `Fairness.ElectionPriorities` | core/ppos_core.c:250-273 | What one scheduler call does to everybody's priorities. |
| `Fairness.ElectionKeepsFair` | core/ppos_core.c:213-276 | A scheduler call keeps, for every k, at most N - k ready tasks at priority L - k or below. |
| `Fairness.ChosenLeavesLevel` | core/ppos_core.c:270-273 | Whenever tasks are about to sink to a level, the chosen one is among them and is reset. |
| `Fairness.StepIsRestful` | core/ppos_core.c:518-557 | Other kernel calls change no priority, and ready only tasks whose dynamic priority is their static one. |
| `Fairness.RunIsFair` | core/ppos_core.c:213-276 | The level bounds hold in every state of every run, with arrivals, departures and new priorities. |
| `Fairness.StepKeepsFair` | core/ppos_core.c:213-276 | Every single kernel call or interrupt keeps the level bounds. |
| `Fairness.PriorityFloor` | core/ppos_core.c:250-260 | No ready task's dynamic priority sinks below L - N + 1. |
| `Fairness.PassedOverAges` | core/ppos_core.c:250-260 | A task that stays ready and is not chosen ages by exactly one per scheduler call. |
| `Fairness.NoStarvation` | core/ppos_core.c:213-276 | A ready task of priority d is passed over at most d - L + N - 1 times in a row: it is chosen within d - L + N scheduler calls. |
| `RoundRobin.RotationChooses` | core/ppos_core.c:224-237 | After r calls among equals the scan selects the element whose turn it is. |
| `RoundRobin.RotationAdvances` | core/ppos_core.c:250-273 | Aging and resetting pass the turn to the next element of the ring. |
| `RoundRobin.ScheduleRotates` | core/ppos_core.c:315-334 | A round of the dispatcher that wakes nobody runs the element whose turn it is and passes the turn on. |
| `RoundRobin.OtherStepKeepsRotation` | core/ppos_core.c:106-116 | No tick and no other call disturbs the rotation of the ready tasks, unless it gives one of them a priority. |
| `RoundRobin.TurnsRotate` | core/ppos_core.c:213-276 | The rotation stands at the number of scheduler calls so far, over any number of steps. |
| `RoundRobin.StrictRoundRobin` | core/ppos_core.c:213-276 | In any run, while the ready ring stays the same and its tasks, equal in priority, start unaged: scheduler call r selects ring element r mod n, for every r, with ticks, yields and other calls in between. |
| `KernelEffects.StepIsTold` | core/ppos_core.c:106-660 | Every step of the kernel, told a second time field by field: who loses and who gets the processor, every ring with the order in which tasks enter it, every field of every record, and every global are exactly those of an independent description. |
| `KernelEffects.SemsAreTold` | core/ppos_core.c:583-660 | The same for the value and the flag of every semaphore. |
| `KernelHistories.PriorityIsGiven` | core/ppos_core.c:486-498 | In every run the static priority is the argument of the last task_setprio on the task, 0 before the first; right after that call the dynamic priority equals it, and nobody else's changes. |
| `KernelHistories.NobodyStarvesAsGiven` | core/ppos_core.c:213-276 | No starvation in the priorities the callers gave: a ready task given priority g is passed over at most g - L + N - 1 times in a row. |
| `KernelHistories.TenthTickPreempts` | core/ppos_core.c:108-115 | A task that got the processor by a scheduler call still has it after a tick exactly if fewer than 10 ticks have fallen since, and has lost it to the dispatcher exactly if it was the tenth. |
| `KernelHistories.TenTicks` | core/ppos_core.c:106-116 | With nothing but n ticks after a scheduler call the chosen task runs for n < 10, and the dispatcher for n = 10. |
| `KernelHistories.FirstSlice` | core/ppos_core.c:106-167 | The main task's first slice is ten ticks from the start. |
| `KernelHistories.DispatcherIsNotPreempted` | core/ppos_core.c:108-205 | The dispatcher's quantum counts its own ticks from -INT_MAX on, and is not used up before INT_MAX + 10 of them. |
| `KernelHistories.IdsCountCreations` | core/ppos_core.c:374-375 | In every run the main task has id 0 and the others 1, 2, 3, ... in the order of their creation. |
| `KernelHistories.ActivationsAreCounted` | core/ppos_core.c:324-333 | Every activation counter is the number of times the dispatcher handed over the processor to that task, or to anybody for the dispatcher's own; the main task's starts at one. |
| `KernelHistories.RoundRunsMostUrgent` | core/ppos_core.c:315-334 | A round of the dispatcher runs the first of the most urgent among the ready tasks and, behind them, the sleepers that are due; it runs nobody exactly if there is none of either. |
| `KernelHistories.SleepsExactly` | core/ppos_core.c:576-581 | A task that sleeps for d ticks is in the sleeping ring up to the first round of the dispatcher that finds them over, and in the ready ring after it. |
| `KernelHistories.RunWaitsIffJoining` | core/ppos_core.c:447-462 | In every run a task waits for an id exactly while it is in the suspended ring. |
| `KernelHistories.RunStatusesFit` | core/ppos_core.c:417-557 | In every run a user task is TERMINATED exactly when it is in no ring, SUSPENDED whenever it sleeps, and RUNNING only if it is the running one. |
| `Semaphores.ValueLaw` | core/ppos_core.c:600-642 | After any calls but destroy on an initial value v0 >= 0: value = v0 + ups - downs, and the queue is as long as the value is below zero. |
| `Semaphores.QueueIsDebtIff` | core/ppos_core.c:583-642 | The queue length is the debt after every history exactly when the initial value is not negative. |
| `Semaphores.FirstInFirstOut` | core/ppos_core.c:613-657 | Over every history, destroy included, the tasks put to sleep are those released followed by those still asleep, in blocking order. |
| `Semaphores.UnitsBoundPassage` | core/ppos_core.c:600-642 | The downs that got through never exceed v0 + ups, and reach it whenever one is held back. |
| `Semaphores.DestroyedForGood` | core/ppos_core.c:602-605 | A destroyed semaphore blocks and releases nobody in any later call. |
| `Semaphores.DestroyFreesAll` | core/ppos_core.c:652-657 | sem_destroy releases every sleeper in blocking order, and nobody is ever asleep there again. |
| `Semaphores.DestroyOverpaysIff` | core/ppos_core.c:613-657 | sem_down reports success also to those whom sem_destroy let go: then all downs have got through, and they are covered by units exactly if nobody was asleep. |
| `KernelSemaphores.CallOnSem` | core/ppos_core.c:600-660 | In the kernel each call has the semaphore's effect on value and queue, and the released tasks go to the tail of the ready ring. |
| `KernelSemaphores.SemStep` | core/ppos_core.c:583-660 | Any kernel step is, for each semaphore, one call on it or nothing. |
| `KernelSemaphores.SemRun` | core/ppos_core.c:583-660 | At every later point of every run a semaphore is what its own calls made of it, so all the laws of Semaphores hold in the kernel. |
| `KernelSemaphores.ReleaseAllRings` | core/ppos_core.c:654-657 | The releasing loop pours the whole queue, in order, behind the ready tasks. |
| `MessageQueues.TokensBoundBuffer` | core/ppos_core.c:674-676 | The buffer never exceeds max_msgs, and it is not empty while some receiver is about to read it. |
| `MessageQueues.ReceiverFindsMessage` | core/ppos_core.c:755-757 | A receiver at the buffer never meets a null buffer. |
| `MessageQueues.InitIsLive` | core/ppos_core.c:662-681 | mqueue_init establishes the invariant, for any number of tasks, exactly if the capacity is not negative. |
| `MessageQueues.StepKeepsSlots` | core/ppos_core.c:691-767 | Free slots are conserved: those in s_vaga, with tasks under way, and the messages make up max_msgs at every step. |
| `MessageQueues.StepKeepsItems` | core/ppos_core.c:691-767 | Messages on offer are conserved likewise through s_item. |
| `MessageQueues.StepKeepsMutex` | core/ppos_core.c:692-767 | At most one task is inside the s_buffer section, and s_buffer has its unit exactly when nobody is. |
| `MessageQueues.StepKeepsSleepers` | core/ppos_core.c:691-767 | Each semaphore's sleepers stand behind the call that blocked them, without repetition. |
| `MessageQueues.StepKeepsHistory` | core/ppos_core.c:714-757 | Messages appended are messages removed followed by the buffer, in FIFO order. |
| `MessageQueues.StepKeepsLive` | core/ppos_core.c:683-770 | Every step of any task, in any interleaving of the semaphore and buffer steps, keeps all of this. |
| `MessageQueueTheorems.RunDelivers` | core/ppos_core.c:683-770 | In every state of every run: FIFO delivery, buffer within capacity, one task in the section, no null buffer followed, destroyed queues included. |
| `MessageQueueTheorems.DeliversIff` | core/ppos_core.c:662-681 | These guarantees hold over all runs exactly when the capacity is not negative. |
| `MessageQueueTheorems.ReceiverGetsOldest` | core/ppos_core.c:755-757 | A receiver gets the oldest message nobody has received. |
| `MessageQueueTheorems.LockHasAwakeHolder` | core/ppos_core.c:692-742 | Whoever waits for s_buffer waits for a task that is not blocked and can go on. |
| `MessageQueueTheorems.QuietMeansFullOrEmpty` | core/ppos_core.c:691-767 | With nobody in mid-operation a blocked sender means a full buffer, a blocked receiver an empty one, and nobody waits for s_buffer. |
| `MessageQueueTheorems.NeverDeadlocked` | core/ppos_core.c:683-770 | With capacity at least 1 senders and receivers are never stuck together, in any run. |
| `MessageQueueTheorems.NoRoomDeadlocks` | core/ppos_core.c:676 | With a capacity of 0 or below there is a run in which one sender and one receiver sleep facing each other. |
| `MessageQueueTheorems.DeadlockFreeIff` | core/ppos_core.c:674-767 | For every capacity: freedom from that deadlock over all runs holds exactly when it is at least 1. |
| `MessageQueueTheorems.DestroyEndsWaiting` | core/ppos_core.c:772-797 | mqueue_destroy leaves no sleeper on any of the three semaphores, and an empty buffer. |
| `MessageQueueTheorems.SleepersArePending` | core/ppos_core.c:693-746 | Whoever is asleep in the queue has still to recheck the active flag. |
| `MessageQueueTheorems.NothingHappensAfter` | core/ppos_core.c:685-746 | After mqueue_destroy nobody sleeps, nothing is put or taken, no receiver's buffer is written, and the queue stays empty for the rest of the run. |
| `MessageQueueTheorems.PendingCallsFail` | core/ppos_core.c:693-746 | A call caught by mqueue_destroy, asleep or not, can always go on and returns -1 after the at most three steps it has left. |
| `MessageQueueHistory.StepAgrees` | core/ppos_core.c:683-797 | Every step agrees with what the callers can tell: what each call was given, whether it has been served, what it returned and what its variable holds. |
| `MessageQueueHistory.SentIsGiven` | core/ppos_core.c:712-717 | In every run the messages put are those given to mqueue_send by the calls that put, in the order they put; those taken are their beginning, and the buffer holds the rest. |
| `MessageQueueHistory.SenderKeepsItsMessage` | core/ppos_core.c:683-728 | From the call until its end a sender holds the message it was given. |
| `MessageQueueHistory.ReturnsZeroIffServed` | core/ppos_core.c:683-770 | A finished call returned 0 exactly if it put or took a message, and otherwise -1. |
| `MessageQueueHistory.ReceiverHoldsItsMessage` | core/ppos_core.c:755-767 | A receiver that was served holds the message it took until its next call; the k-th message taken is the k-th put. |
| `MessageQueueHeap.MessageQueue.constructor` | core/ppos_core.c:662-681 | The record as mqueue_init leaves it. |
| `MessageQueueHeap.MessageQueue.BeginSend` | core/ppos_core.c:685-688 | A send on an inactive queue returns -1; otherwise it takes over the caller's message and goes on to s_vaga. |
| `MessageQueueHeap.MessageQueue.BeginRecv` | core/ppos_core.c:735-738 | A receive on an inactive queue returns -1; otherwise it goes on to s_item. |
| `MessageQueueHeap.MessageQueue.SendSemaphoreStep` | core/ppos_core.c:691-728 | The sender's semaphore calls, in their order; the last one returns 0. |
| `MessageQueueHeap.MessageQueue.RecvSemaphoreStep` | core/ppos_core.c:741-767 | The receiver's semaphore calls, in their order; the last one returns 0. |
| `MessageQueueHeap.MessageQueue.PutStep` | core/ppos_core.c:693-717 | On the linked buffer: -1 when inactive, otherwise the message in a new cell at the tail. |
| `MessageQueueHeap.MessageQueue.TakeStep` | core/ppos_core.c:743-760 | On the linked buffer: -1 when inactive, otherwise the first cell's message is copied and the cell unlinked. |
| `MessageQueueHeap.MessageQueue.Step` | core/ppos_core.c:683-770 | In every reachable state every step is safe on the linked structure, is the step of MessageQueues, and keeps its invariant. |
| `MessageQueueHeap.MessageQueue.Destroy` | core/ppos_core.c:772-797 | The loop empties the linked buffer; the state is the one of MessageQueues. |
| `KernelMessages.InitIsGood` | core/ppos_core.c:674-676 | mqueue_init creates the three semaphores in a running kernel, for any distinct callers, and starts a run of kernel and queue. |
| `KernelMessages.CallerCanStep` | core/ppos_core.c:683-770 | Whenever the kernel runs a caller, that caller is asleep in none of the queue's semaphores and its next step can happen. |
| `KernelMessages.MoveKeepsInv` | core/ppos_core.c:583-797 | Every kernel call of anybody and every step of the queue keeps the kernel's invariant, the queue's, and their agreement on values and sleepers of the three semaphores. |
| `KernelMessages.CallKeepsPlace` | core/ppos_core.c:313-660 | No kernel call takes a caller out of the ready ring or the queue's semaphores, but its own. |
| `KernelMessages.RunKeepsGood` | core/ppos_core.c:583-797 | All of this holds in every state of every run of kernel and queue. |
| `KernelMessages.KernelDelivers` | core/ppos_core.c:683-770 | FIFO delivery, bounded buffer, one task in the section and no null buffer hold in the kernel, whatever its other tasks do. |
| `KernelMessages.SleepersAreTasks` | core/ppos_core.c:691-767 | In the kernel a task in the middle of a call is in the ready ring exactly if it sleeps in none of the three semaphores. |
| `KernelMessages.HolderIsReady` | core/ppos_core.c:692-742 | In the kernel whoever waits for s_buffer waits for a holder that is in the ready ring. |
| `KernelMessages.RunIsQueueRun` | core/ppos_core.c:583-797 | The queue's part of a kernel run is a run of MessageQueues. |
| `KernelMessages.CaughtCallsFail` | core/ppos_core.c:693-746 | In the kernel a call caught by mqueue_destroy returns -1 after the few steps it has left. |
| `KernelMessages.KernelCallersAreServed` | core/ppos_core.c:683-770 | In the kernel, whatever its other tasks do: what is delivered is what the callers gave, return codes tell exactly who was served, and receivers hold what they took. |
| `DiskDevices.StaysSound` | core/disk/disk.c:117-141 | Over every history of commands and completions prev_block and next_block stay on the disk and the number of blocks stays. |
| `DiskDevices.OneOutstanding` | core/disk/disk.c:244-264 | At most one transfer is outstanding, and one is exactly while the device is busy. |
| `DiskDevices.HeadFollowsTransfers` | core/disk/disk.c:110-145 | Over every history prev_block is the block of the last transfer that was taken on and completed, and 0 before the first. |
| `DiskDevices.TakenIff` | core/disk/disk.c:244-264 | A transfer is taken on exactly if there has been an initialisation, none is outstanding, and buffer and block are good. |
| `DiskDevices.RepliesTell` | core/disk/disk.c:205-241 | What the other commands answer, by the history alone: -1 before the initialisation, then size, block size and limits; the status tells what is outstanding. |
| `DiskDevices.CompletionTransfers` | core/disk/disk.c:117-141 | Data moves only on a completion, between the block and the buffer of the last transfer taken on, in the direction of its command. |
| `DiskDevices.DelayInRange` | core/disk/disk.c:80 | Every delay is at least the minimum and less than the maximum plus a tenth of the range. |
| `DiskDevices.WithinLimitsIff` | core/disk/disk.c:77-80 | For any limits: the delay stays within them, whatever rand() gives, exactly if the distance's share of the range and the greatest random part fit into the range. |
| `DiskDevices.DeviceWithinLimitsIff` | core/disk/disk.c:77-80 | For this device: exactly if the distance's share is at most 244 of 270 milliseconds. |
| `DiskDevices.DelayCanExceedMaximum` | core/disk/disk.c:77-80 | An input on which the delay passes the maximum the device reports, against the comment. |
| `DiskDevices.SplitIsExactIff` | core/disk/disk.c:87-90 | The seconds and nanoseconds form a legal time worth the delay exactly when it is below one second. |
| `DiskDevices.TimerIsExact` | core/disk/disk.c:80-90 | With the device's limits that is always so, and the multiplication fits in 32 bits. |
| `DiskDevices.DiskDevice.SetTimer` | core/disk/disk.c:73-105 | The timer is armed, and set to exactly the computed delay. |
| `DiskDevices.DiskDevice.Cmd` | core/disk/disk.c:203-269 | Reply and new state of every command: a busy device, a null buffer, a bad block and an uninitialised device are refused unchanged. An accepted transfer leaves the timer at the delay for the distance from the previous block to the new one; every other command leaves the timer alone. |
| `DiskDevices.DiskDevice.SigHandle` | core/disk/disk.c:110-145 | The pending block goes into the buffer or the buffer into the block, the head is at that block, and the device is idle; any other state is reported. |
| `DiskRuns.RequestKeepsInv` | core/ppos_disk.c:173-186 | A new request keeps every pending buffer's and answer's relation to the sequential disk. |
| `DiskRuns.CompletionKeepsInv` | core/disk/disk.c:117-141 | So does a transfer, which is the next one in submission order. |
| `DiskRuns.ServeKeepsInv` | core/ppos_disk.c:76-108 | The driver hands over the oldest request, and leaves the device busy or no request behind. |
| `DiskRuns.SignalFindsOwner` | core/ppos_disk.c:61-67 | When a signal is handled the first task of disk_queue is the owner of the transfer just carried out. |
| `DiskRuns.StepKeepsInv` | core/ppos_disk.c:47-205 | Every step of clients, driver and device keeps the manager's invariant. |
| `DiskRuns.RunKeepsInv` | core/ppos_disk.c:47-205 | It holds in every state of every run from disk_mgr_init on. |
| `DiskRuns.StepSubmits` | core/ppos_disk.c:168-193 | A step queues exactly the request its client's call asks for: its task, block, buffer and operation, and nothing otherwise. |
| `DiskRuns.RecordIsHistory` | core/ppos_disk.c:47-205 | In every run the requests submitted are the arguments of the clients' calls in order, the transfers counted are the completions, and the answers recorded are those of the driver's turns on a signal. |
| `DiskRuns.RefinesSequentialDisk` | core/ppos_disk.c:47-205 | Stated by the steps alone: the blocks are those that executing the completed requests one by one in the order of the clients' calls leaves, each with its call's block, buffer, operation and data; the clients are readied in that order, each finding the sequential disk's answer in its buffer. |
| `DiskRuns.BuffersAreHistory` | core/disk/disk.c:117-141 | In every run each buffer holds what its last writer left: a task's store, or the sequential disk's answer to a read carried out for it; nobody else writes. |
| `DiskRuns.QueueIsOwners` | core/ppos_disk.c:181-202 | disk_queue without the driver is the owner of the outstanding or unhandled transfer, if any, followed by the tids of request_queue in order. |
| `DiskRuns.DriverWakesOwner` | core/ppos_disk.c:61-67 | Resuming the head of disk_queue never follows a null pointer and readies exactly the owner of the completed request. |
| `DiskRuns.DriverSleepsInPeace` | core/ppos_disk.c:76-113 | While the driver sleeps the device is busy, or there is no request, no signal and no client. |
| `DiskRuns.WorkShrinks` | core/ppos_disk.c:56-115 | Each turn of the driver and each completion brings the end of the pending work nearer. |
| `DiskRuns.WorkGoesOn` | core/ppos_disk.c:56-115 | While a request is unreturned the driver or the device can take a step. |
| `DiskRuns.EveryRequestReturns` | core/ppos_disk.c:47-205 | While nobody makes new requests, driver and device take a bounded number of turns, whatever happens in between; when they can take no more, every request has been returned. |
| `DiskRefusals.AllWokenIffAllFit` | core/ppos_disk.c:56-115 | Whatever the clients ask for: when driver and device are at rest, every client has been woken exactly if every request so far had a block of the disk and a real buffer; otherwise at least as many clients sleep on as there were unfit requests. |
| `DiskRefusals.StepIsAccounted` | core/ppos_disk.c:56-205 | Every step keeps the count: the clients asleep are one for each waiting request, one for the transfer under way, and one for each request the driver has dropped. |
| `DiskRefusals.RestIsReached` | core/ppos_disk.c:56-115 | With any requests the driver never follows a null pointer, rest is where driver and device cannot go on, and each of their steps brings it nearer. |
| `DiskRefusals.ServedIffValid` | core/ppos_disk.c:85-107 | Alone, a request gets the device going exactly if its block and buffer are valid. |
| `DiskRefusals.WakeUpGoesAstray` | core/ppos_disk.c:65 | After a refused request the next completion wakes the refused client, while the owner of the transfer sleeps on. |
| `DiskRefusals.ValidRequestStranded` | core/ppos_disk.c:76-113 | A valid request behind a refused one stays in request_queue with the device idle and the driver asleep. |
| `KernelDisk.DriverReadied` | core/ppos_disk.c:50 | Resuming the driver removes it from disk_queue if it is there and is harmless if it is ready already. |
| `KernelDisk.ClientBlocksView` | core/ppos_disk.c:195-202 | In the kernel a client's wait wakes a driver marked SUSPENDED, whichever ring it is in, and puts the client last in disk_queue. |
| `KernelDisk.FirstResumedView` | core/ppos_disk.c:65 | In the kernel the head, and only the head, of disk_queue is readied. |
| `KernelDisk.CallLeavesDisk` | core/ppos_core.c:313-660 | No other kernel call or interrupt touches disk_queue, unreadies the driver, or changes the status of a sleeping driver. |
| `KernelDisk.MoveIsStep` | core/ppos_disk.c:47-205 | Every step of kernel and manager together, with any requests, is a step of the manager's own transition system, and can happen there. |
| `KernelDisk.MoveKeepsInv` | core/ppos_disk.c:47-205 | So the invariants of kernel and manager hold together. |
| `KernelDisk.SignalHasClient` | core/ppos_disk.c:65 | In every reachable state a signal finds a client in disk_queue. |
| `KernelDisk.MgrInitStarts` | core/ppos_disk.c:120-166 | disk_mgr_init on a running kernel starts such a run. |
| `KernelDisk.RunIsDiskRun` | core/ppos_disk.c:47-205 | Whatever the other tasks do, the manager's part of a run is a run of its transition system. |
| `KernelDisk.RunIsKernelRun` | core/ppos_disk.c:47-205 | And the kernel's part is a run of the kernel, so that everything proved of those holds while the disk is at work. |
| `KernelDisk.AskedOfTheDisk` | core/ppos_disk.c:168-193 | What the manager is asked for is what the running tasks' calls ask for. |
| `KernelDisk.ServedByTheDisk` | core/ppos_disk.c:56-67 | The answers of the manager's system are the tasks the driver's turns ready, with what their buffers hold then. |
| `KernelDisk.ClientsGetSequentialAnswers` | core/ppos_disk.c:168-205 | So clients of the kernel get the sequential disk's answers, each for the block, buffer and operation of the running task's own call, in the order of the calls. |
| `KernelDisk.ClientsAllReturn` | core/ppos_disk.c:47-205 | In the kernel, once nobody makes new requests, driver and device take a bounded number of turns, and when they are at rest all clients have returned. |
| `KernelDisk.LooseRunIsDiskRun` | core/ppos_disk.c:47-205 | Runs of the kernel with any requests, valid or not, are runs of the manager's system. |
| `KernelDisk.AllWokenIffAllFit` | core/ppos_disk.c:56-115 | In the kernel, at rest, all clients have been woken exactly if every request so far was fit. |
| `DiskService.MoveKeepsFair` | core/ppos_core.c:213-276 | The level bounds of Fairness survive every step of kernel and manager. |
| `DiskService.MgrInitIsFair` | core/ppos_disk.c:147 | They hold wherever a bounded run of the kernel calls disk_mgr_init. |
| `DiskService.DriverGetsItsTurn` | core/ppos_core.c:213-276 | A ready driver of priority d is passed over at most d - L + N - 1 times in a row, whatever clients and device do meanwhile. |
| `DiskManagers.DiskManager.constructor` | core/ppos_disk.c:39 | The records before disk_mgr_init, on a device that has not been initialised. |
| `DiskManagers.DiskManager.MgrInit` | core/ppos_disk.c:120-166 | A second call returns -1 and changes nothing; the first returns 0, sets the sizes to those of the device and starts the driver task. |
| `DiskManagers.DiskManager.AddRequest` | core/ppos_disk.c:175-186 | The request is last in the linked request_queue. |
| `DiskManagers.DiskManager.Serve` | core/ppos_disk.c:76-108 | With an idle device and a linked queue that is not empty the oldest request leaves the queue and is given to the device; otherwise nothing happens. |
| `DiskManagers.DiskManager.BlockOp` | core/ppos_disk.c:168-205 | On the linked kernel: the client's part is exactly the model's step; the request queued last is the running task's, for the given block, buffer and operation, and the call returns 0. |
| `DiskManagers.DiskManager.Acknowledge` | core/ppos_disk.c:61-67 | A signal readies the head of the linked disk_queue and is cleared; without one nothing happens. |
| `DiskManagers.DiskManager.DriverTurn` | core/ppos_disk.c:56-115 | On the linked kernel: one turn of the driver's loop is exactly the model's step. |
| `DiskManagers.DiskManager.SafeTurn` | core/ppos_disk.c:56-115 | In every reachable state that turn is safe and keeps the invariants of kernel and manager. |
| `DiskManagers.DiskManager.Completion` | core/ppos_disk.c:47-51 | The device's handler, the signal it raises and the manager's handler are exactly the model's step. |
| `Accounting.EveryTickOnce` | core/ppos_core.c:318-345 | Whatever ticks fall between the clock readings, each is charged once: to the task that ran, to the dispatcher, or to nobody. |
| `Accounting.ChargesAddUpIff` | core/ppos_core.c:318-345 | The charges never exceed the time since the dispatcher's first round, and equal it exactly when no tick fell between adjacent readings. |
| `Accounting.Clocks.DispatchOnce` | core/ppos_core.c:318-345 | One round charges the task its run and the dispatcher its two shares, with tasks created meanwhile uncharged. |
| `Accounting.Clocks.Dispatch` | core/ppos_core.c:313-346 | After any rounds, and at every loop head, the fields hold exactly the ticks owed to their owners, and with the unclaimed ticks make up the time elapsed. |
| `Accounting.AlwaysCovered` | core/ppos_core.c:315-345 | At every loop head the charges fit into the time since the dispatcher's first round. |
| `Accounting.RoundAdded` | core/ppos_core.c:318-345 | One round of charges is exactly what the ticks of that round are owed. |
| `Barriers.StepKeepsInv` | coordination/barrier.c:30-56 | Every step of every thread keeps the invariant of lock, counter, posted units and waiting threads. |
| `Barriers.CountsAddUp` | coordination/barrier.c:33-51 | Over all interleavings and reuse: counter = arrivals mod size, units posted at most (size - 1) x completed groups and exactly that many outside the posting loop, returned calls at most size x floor(arrivals / size). |
| `Barriers.NobodyLeavesEarly` | coordination/barrier.c:34-55 | Nobody returns before size threads have arrived. |
| `Barriers.WholeGroupsPass` | coordination/barrier.c:42-54 | With whole groups only and the lock free, barrier_s holds one unit for each thread that waits. |
| `Barriers.OnlyTheUnfinishedWait` | coordination/barrier.c:32-54 | Threads get stuck only at barrier_s, and only those of an unfinished group. |
| `Barriers.AllReturnIff` | coordination/barrier.c:30-56 | When no call can go on, all have returned exactly if the number of calls is a multiple of size. |
| `Barriers.AllReturnIffAnySize` | coordination/barrier.c:22-56 | For a barrier of any size, in any run: when no call can go on, all have returned exactly if size divides the number of calls, and with a size below 1 exactly if nobody has called. |
| `Barriers.CallsEnd` | coordination/barrier.c:30-56 | If nobody calls again the calls under way take boundedly many steps altogether. |
| `Barriers.Barrier.constructor` | coordination/barrier.c:22-28 | barrier_init, for any size: an open lock, no units, no arrivals. |
| `Barriers.Barrier.Go` | coordination/barrier.c:30-56 | One thread's next step on the record is the model's step, and keeps the invariant where it holds. |
| `Robots.OneCanMove` | coordination/robots.c:12-52 | A thread can go on exactly when it is its turn. |
| `Robots.StepKeepsInv` | coordination/robots.c:12-52 | Every step keeps one token, in a semaphore or with a thread, at the thread whose turn it is. |
| `Robots.WordsFollowScript` | coordination/robots.c:12-60 | In every interleaving the words are a prefix of Bart, Lisa, Maggie, Lisa repeated, there is one token, and exactly one thread can go on. |
| `Robots.EveryThirdStepPrints` | coordination/robots.c:12-52 | The words keep coming: after i steps (i + 1) / 3 of them have been printed. |
| `Robots.Table.constructor` | coordination/robots.c:58-60 | bart_s starts with the only unit. |
| `Robots.Table.BartGoes` | coordination/robots.c:12-22 | One step of bart's loop on the semaphores. |
| `Robots.Table.LisaGoes` | coordination/robots.c:24-39 | One step of lisa's loop, which waits, prints and posts twice. |
| `Robots.Table.MaggieGoes` | coordination/robots.c:41-52 | One step of maggie's loop. |

## Left out

- `ucontext` switching, stacks, `malloc` and `free`, signals and timers as system calls: a switch changes `curr`, a signal is a step.
- Interrupts inside a kernel call and the spin lock of `enter_cs` and `leave_cs`: see the assumptions on steps above.
- The failure paths of allocation: `mqueue_send` would return while holding `s_buffer` (core/ppos_core.c:700-710).
- User calls of `task_switch` that bypass the dispatcher, and reuse of a task descriptor: both break the ring of the running task and the uniqueness of ids.
- Wrap-around of the clock, of ids and of the other counters, and the `short` width of priorities: unbounded integers are used. The dispatcher's quantum starts far below zero, as in the source.
- `execution_time` and the printed statistics; `processor_time` is modelled in `Accounting.dfy` only, apart from the kernel's task records.
- Contents and sizes of messages and blocks: a message and a block are each one value, and a buffer address stands for one block of memory; overlapping buffers are not modelled.
- `task_getprio`, `task_id`, `systime`, `mqueue_msgs`: they read one field.
- `queue_print` and all debug output; the disk's file access and its failures.
- A disk of no blocks: it accepts no request at all, and its block numbers stay at 0.
- coordination/bathrooms.c: its line 78 compares with a value that is never assigned, so its main promise does not hold; only the capacity bound would be left.
- The `exit` calls on null pointers (core/ppos_core.c:419-423, 521-525, 546-550): callers pass existing tasks and queues.
- The separation of a barrier's groups under reuse: a fast thread can come round and take a unit posted for a slower one (coordination/barrier.c:43-54), so only the counting laws hold.
- The semaphores of the queue in place and of the two coordination programs are single values, not linked rings; `KernelMessages` and `KernelSemaphores` tie them to the kernel's rings.
- Kernels.Kernel.TaskWait: the call's second half, which returns the target's code after the switch back, is stated over runs by `KernelTheorems.JoinNeverMissed`; the method ends at the switch.
- Kernels.Kernel.Activate: the charge of core/ppos_core.c:329 to the dispatcher is stated by `Accounting.Clocks.DispatchOnce`, since the kernel's task records hold no times.
- Kernels.Kernel.Dispatch: likewise for the charges of a round; the loop's guard is the subject of `KernelTheorems.LoopEndsWithLastTask`.
- Kernels.Kernel.Register: `execution_time` and `processor_time` are not fields of the record.
- Kernels.Kernel.TaskInit: a descriptor already in use is excluded, because reusing it breaks ids and rings by the source's own design.
- Kernels.Kernel.SemInit: each call makes a new semaphore; the -1 for a null pointer and initialising the same one again are not expressed.
- DiskRuns.RefinesSequentialDisk: it asks for valid requests and for buffers left alone while in use, as its answers make no sense otherwise; what becomes of the clients with any requests is `DiskRefusals.AllWokenIffAllFit`.
