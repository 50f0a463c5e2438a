# A verified model of the reL4 kernel

reL4 is a Rust implementation of the seL4 microkernel. This project models its most intricate
parts in Dafny and proves what they are there for. All files verify together:
`dafny verify dfyconfig.toml`.

**Time budgets** (`RefillList`, `RefillSupply`, `RefillExact`, `RefillRuns`, `RefillBandwidth`, `RunningTime`,
`SchedContext`). The MCS kernel gives a thread its processor time as a list of refills kept in a ring. The list
operations are functions; the ring, with 64-bit words and its loops, is a class proved against them. A refill
list is also read as the stream of single ticks it will supply: charging never brings a used tick back before
its period is over, and where the ring has room it brings every one back exactly then; merging, unblocking and
reconfiguring are described tick by tick as well. A state machine of kernel entries, dispatches, yields,
wake-ups and reconfigurations carries the invariants through every run, and bounds the time a context is charged,
and the time it runs, by one budget per period.

**Kernel lock** (`ClhLock`). The multi-core lock is a state machine over its atomic steps, for any
number of CPUs and any interleaving, and a class whose methods are those steps.

**Scheduler** (`Scheduler`, `SchedulerRuns`, `SchedulerEffects`, `TimeSlices`, `TcbQueue`, `ReadyQueues`,
`ReleaseQueue`). The single-core, single-domain, non-MCS scheduler as functions on abstract queues, its runs, what
every operation does to whom, preemption by priority and by the timer, and the kernel object with intrusive lists and the two-level bitmap that refines it, from the state boot leaves; also the MCS release queue and the MCS
endpoint queues ordered by priority.

**Capability space** (`Capability`, `DerivationList`, `DerivationRuns`, `DerivationEffects`, `CSpaceLookup`). The
derivation lists through the slots, laid end to end as one sequence, with insert, move, swap and delete, what they do
to every capability and mark, and which undo which; and the two walkers that translate an address to a slot.

**Call stacks** (`CallStack`, `CallStackRuns`, `CallStackEffects`). Reply objects, the stack they form under a scheduling
context, and the donation of the context along a call and back.

**IPC** (`Ipc`, `IpcRuns`, `IpcEffects`, `IpcObjects`). Endpoints and notifications of the non-MCS kernel: functions on
abstract queues, runs from new objects on, what every operation does to each thread and object, and the objects with linked queues that refine them.

**Boot memory and untyped memory** (`Regions`, `FreeMemory`, `BootSweep`, `BootMemory`, `Untyped`,
`Retype`). The sweep that subtracts reserved from available memory, the table of reserved regions, the
cutting of regions into blocks, and the preemptible reset and retyping of a block.

`ThreadStates` holds the states of a thread; `Sequences` and `Powers` hold facts about sequences and powers of two.

## Results that qualify what the code does

Some properties turn out to hold only under a condition; each is proved in both directions,
and there is an input for which it fails.

- `refill_unblock_check` brings a head that lies up to the kernel's worst-case time in the future forward
  to the current time: `RefillSupply.UnblockDefers` and `RefillSupply.UnblockCanAdvance`.
- `is_self_in_queue` answers rightly, for every CPU under every interleaving, exactly if the CPU is not
  between the two stores of `release` with its node taken over by a CPU that wants the lock:
  `ClhLock.SelfInQueueIff` and `ClhLock.SelfInQueueMidRelease`. No caller asks at that point: the test reads
  the node of the CPU it runs on, and `release` calls nothing between its two stores.
- `is_final_cap` takes each of several capabilities to scheduling control for the last one: in the MCS build
  boot writes one per core, and they are the same object but not linked. The check is right for every slot
  in every state any run reaches exactly if boot wrote at most one of them, and for all other objects in any
  case: `DerivationRuns.FinalEverywhereIff`, `DerivationRuns.TwoSchedControls` and
  `DerivationRuns.FinalIsGlobal`.
- `release_enqueue` fails its own assertion when the queue has one thread with the same ready time:
  `ReleaseQueue.ReleaseQueue.ReleaseEnqueue` and `ReleaseQueue.EnqueueTwice`.
- `cte_swap` breaks the derivation list when the two slots are neighbours: `DerivationList.SwapIffApart`.
- `lookup_fp` differs from `resolve_address_bits` for a guard without guard bits and for a CNode without
  radix bits: `CSpaceLookup.AgreeIffFits`.
- Binding does not check that the notification is not bound to another thread already, which leaves that
  thread bound on one side only; and binding a notification that has a signal to a thread that is already
  waiting to receive leaves the thread waiting: `IpcRuns.BindKeeps` and `IpcRuns.BindTwiceExample`.
- `reply.push` clears the reply link of the callee on one side only, so its callers must have unlinked the
  callee before: `CallStack.PushNeedsFreeCallee` and `CallStack.PushExample`.
- `rust_init_freemem` hands out reserved memory exactly when a reserved region that the sweep is done with
  meets a later available region, for available regions in whatever order: `FreeMemory.ExactIff`. In
  ascending order that is a reserved region which starts at or below what is left of an available region and
  reaches into the next one (`FreeMemory.AscendingLeak`, `FreeMemory.LeakExample`); a wrong order is
  reported, but not refused, and leaks as well (`FreeMemory.UnorderedExample`).
- `reserve_region` spoils the list of reserved regions exactly if it is given a region that overlaps one of
  them and finds room: `BootMemory.NdksBoot.ReserveRegion` and `BootMemory.ReserveOverlapping`.

One operation has a precondition that it does not check: `suspend` does not withdraw a pending switch to the
suspended thread, which `schedule` asserts can run, so it keeps the scheduler's invariant exactly if the
thread is not that candidate: `SchedulerRuns.SuspendKeeps` and `SchedulerRuns.SuspendExample`.

## Model

| member | source | states |
|---|---|---|
| RefillSupply.ChargeNeverEarly | sel4_task/src/sched_context.rs:405-437 | after a charge that fits the budget and is charged in full, the supply at every instant is at most the old supply with its earliest `usage` ticks shifted one period later |
| RefillSupply.BudgetCheckLags | sel4_task/src/sched_context.rs:405-437 | the same tick by tick for any usage, even one that goes round the refill list several times: no used tick comes back before its period is over |
| RefillExact.ChargeSupplyExact | sel4_task/src/sched_context.rs:405-437 | with room in the ring and a head left that is not too small, the supply at every instant after a charge is the old one with just its earliest `usage` ticks one period later: nothing comes later than that either |
| RefillExact.ChargeExact | sel4_task/src/sched_context.rs:405-431 | the same tick by tick for any usage before heads are merged, and the refills stay within one period of the head also in a full ring |
| RefillExact.ScheduleUsedExact | sel4_task/src/sched_context.rs:286-298 | with room in the ring, or next to the tail, every old tick stays and those given back run from the given time or the end of the tail, whichever is later; in a full ring only the ticks of the tail move, and end where those given back begin |
| RefillExact.MergeSmallExact | sel4_task/src/sched_context.rs:432-437 | heads are merged up to the first refill with which the minimum budget is reached, into one refill with all their time that ends where the last of them did |
| RefillExact.UnblockExact | sel4_task/src/sched_context.rs:181-201 | unblocking a ready context moves the ticks of its head to the current time and every later tick only as far as they are in its way |
| RefillExact.UnblockSeparates | sel4_task/src/sched_context.rs:170-201 | the head of a ready context then does not reach the next refill |
| RefillExact.UpdateExact | sel4_task/src/sched_context.rs:247-285 | reconfiguring keeps what is left in the head, up to the new budget, and gives what is missing one new period after the head |
| RefillExact.UpdateSupply | sel4_task/src/sched_context.rs:247-285 | up to one new period after the head no more is supplied than was left, and from then on the rest without a gap |
| RefillSupply.UnblockDefers | sel4_task/src/sched_context.rs:181-201 | unblocking advances no tick by more than the worst-case time, and advances none exactly when the head is not in that window in the future |
| RefillSupply.UnblockCanAdvance | sel4_task/src/sched_context.rs:181-209 | the window is real: a concrete context whose supply grows when it is unblocked |
| RefillSupply.SupplyIsBelow | sel4_task/src/sched_context.rs:286-298 | the supply curve, a sum over refills, is the number of ticks whose time has come |
| RefillSupply.MergeSmallDefers | sel4_task/src/sched_context.rs:432-437 | merging small heads only defers ticks |
| RefillSupply.ScheduleUsedTicks | sel4_task/src/sched_context.rs:286-298 | giving back used time appends its ticks and defers others at most, also when the ring is full and the time is folded into the tail; `ScheduleUsedExact` says exactly where they go |
| RefillList.ScheduleUsedKeeps | sel4_task/src/sched_context.rs:286-298 | the refills stay positive, ordered, disjoint and within the ring; their sum grows by the amount given back |
| RefillList.BudgetCheckKeeps | sel4_task/src/sched_context.rs:405-437 | charging keeps the sum, the order and the bound on release times, and leaves a head of at least the minimum budget that is not earlier |
| RefillList.UnblockKeeps | sel4_task/src/sched_context.rs:181-201 | unblocking keeps sum and shape; the head moves to the current time exactly if it is ready |
| RefillBandwidth.BudgetPerPeriod | sel4_task/src/scheduler.rs:589-762 | in every run from any state, whenever the context is ready again after `m` whole budgets have been charged, `m` periods have passed since its first head, up to the worst-case time and what unblocking pulled forward |
| RefillBandwidth.NoMoreThanBudget | sel4_task/src/sched_context.rs:156-168 | the same for a context from the moment it was configured |
| RefillBandwidth.BudgetPerPeriodReconfigured | kernel/src/syscall/invocation/invoke_sched.rs:106-160 | the same for a context that is reconfigured any number of times while it runs: every whole budget charged takes its period, each with the parameters of its time |
| RunningTime.RunningTimePerPeriod | sel4_task/src/scheduler.rs:589-762 | however often a context is preempted, yields, overruns, sleeps and wakes: once it has run for `m` whole budgets and is ready again, `m` periods have passed, up to the same margin |
| RunningTime.NothingIsFree | sel4_task/src/scheduler.rs:589-762 | in every step the time run is charged or still counted as consumed, and nothing else is charged, except that yielding gives up the rest of the head |
| RunningTime.SleepSavesNothing | sel4_task/src/sched_context.rs:181-201 | a context that wakes up when it is ready, or is dispatched with constant bandwidth, has no time left from before |
| RefillBandwidth.RunCompact | sel4_task/src/sched_context.rs:405-437 | in every run in which no head is pulled forward the refills stay within one period of the head, which is what the exact supply needs |
| RefillBandwidth.CompactSinceStart | sel4_task/src/sched_context.rs:156-168 | so they do in every such run from the moment the context was configured |
| RefillBandwidth.RunTrails | sel4_task/src/sched_context.rs:181-437 | after any run of charges, commits, yields, wake-ups and dispatches the ticks trail those at its start, used up to everything charged, at most by what unblocking pulled forward |
| RefillBandwidth.StepTrails | sel4_task/src/scheduler.rs:589-762 | each step does so |
| RefillRuns.RunsAreSafe | sel4_task/src/sched_context.rs:104-298 | over every run of charging, committing, yielding, unblocking and reconfiguring, the refills sum to the budget configured last, the shape holds and no assertion fails |
| RefillRuns.StepSafe | sel4_task/src/scheduler.rs:589-762 | each step, the charge at a preemption point included, keeps the invariant of the context, and the assertions it meets hold |
| RefillRuns.ConfigureSafe | kernel/src/syscall/invocation/invoke_sched.rs:106-160 | reconfiguring a context, current or not, keeps the invariant for the new budget |
| RefillRuns.FreshIsInvariant | sel4_task/src/sched_context.rs:156-168 | a new context satisfies the invariant |
| RefillRuns.FreshKeeps | sel4_task/src/sched_context.rs:156-168 | a new context is well formed, round robin or not, with the whole budget in its head from now on |
| RefillRuns.ReconfiguredKeeps | sel4_task/src/sched_context.rs:247-285 | updating a context gives one well formed for the new budget; its head time is the current time exactly if the old head was ready |
| RefillRuns.UnblockedKeeps | sel4_task/src/sched_context.rs:181-201 | unblocking keeps a context well formed and a ready head ready |
| RefillRuns.ChargedBudgetKeeps | sel4_task/src/scheduler.rs:685-712 | charging a context, round robin or not, keeps it well formed for its budget |
| RefillRuns.CommittedKeeps | sel4_task/src/scheduler.rs:714-738 | committing consumed time keeps a context well formed and moves its head by at most that time |
| RefillRuns.RoundRobinSlice | sel4_task/src/scheduler.rs:685-738 | a round-robin context keeps what it has used in its tail until its time slice ends, and then has the whole budget in its head again |
| SchedContext.SchedContext.RefillPopHead | sel4_task/src/sched_context.rs:104-113 | drops the first refill of the list the ring stands for and returns its index |
| SchedContext.SchedContext.RefillAddTail | sel4_task/src/sched_context.rs:139-149 | appends a refill; the ring has room |
| SchedContext.SchedContext.RefillSum | sel4_task/src/sched_context.rs:127-138 | the loop over the ring computes the sum of the list |
| SchedContext.SchedContext.ScheduleUsed | sel4_task/src/sched_context.rs:286-298 | gives time back on the ring as `ScheduleUsedExact` describes on the list; no 64-bit addition wraps |
| SchedContext.SchedContext.RefillBudgetCheck | sel4_task/src/sched_context.rs:405-437 | the three loops do to the ring what charging does to the list, exactly described by `ChargeExact` and `MergeSmallExact`; no addition wraps, no subtraction underflows, and the context stays valid |
| SchedContext.SchedContext.RefillHeadOverlapping | sel4_task/src/sched_context.rs:170-180 | tells whether the second refill starts before the end of the first |
| SchedContext.SchedContext.RefillUnblockCheck | sel4_task/src/sched_context.rs:181-201 | acts on the context as specified, and asks for the timer to be set exactly if the head was ready |
| SchedContext.SchedContext.MaybeAddEmptyTail | sel4_task/src/sched_context.rs:150-155 | a round-robin context gets an empty second refill |
| SchedContext.SchedContext.RefillNew | sel4_task/src/sched_context.rs:156-168 | makes the ring of a fresh context |
| SchedContext.SchedContext.RefillUpdate | sel4_task/src/sched_context.rs:247-285 | cuts the ring to its head and rebuilds it for the new parameters, with the supply `UpdateSupply` describes |
| SchedContext.SchedContext.ChargeBudget | sel4_task/src/scheduler.rs:685-712 | charges the current context as specified and adds up what it consumed |
| SchedContext.SchedContext.CommitTime | sel4_task/src/scheduler.rs:714-738 | commits consumed time as specified |
| ClhLock.MutualExclusion | kernel/src/smp/lock.rs:105-167 | under every interleaving of atomic steps at most one CPU is past acquire, and CPUs get past it in the order of their head swaps |
| ClhLock.HeadNeverNull | kernel/src/smp/lock.rs:105-135 | the head is always one of the nodes, so the swap loop runs once |
| ClhLock.NodesConserved | kernel/src/smp/lock.rs:73-84 | when no CPU is in the middle of a release, the nodes the CPUs own and the spare one are all N+1 nodes, each once |
| ClhLock.FrontCanMove | kernel/src/smp/lock.rs:105-167 | the first CPU in the queue can always take its next step |
| ClhLock.EveryoneGetsIn | kernel/src/smp/lock.rs:105-167 | from every reachable state, every CPU that has swapped the head gets past acquire in some continuation, after just those that swapped before it |
| ClhLock.NoOvertaking | kernel/src/smp/lock.rs:105-167 | while a CPU waits, however the run goes on, no more CPUs get past acquire than had swapped before it and not released |
| ClhLock.SelfInQueueIff | kernel/src/smp/lock.rs:92-102 | under every interleaving, a CPU's test of its own node tells whether it wants or holds the lock exactly if it is not in the middle of a release with its node taken over by a CPU that does |
| ClhLock.SelfInQueueMidRelease | kernel/src/smp/lock.rs:155-167 | a run of two CPUs after which the test would answer wrongly |
| ClhLock.EveryNodeHasOwner | kernel/src/smp/lock.rs:73-84 | every node is the spare one or owned by a CPU |
| ClhLock.Run | kernel/src/smp/lock.rs:105-167 | the invariant holds after every sequence of steps |
| ClhLock.StepKeeps | kernel/src/smp/lock.rs:105-167 | every atomic step of any CPU keeps the invariant of queue, tickets and nodes |
| ClhLock.KernelLock.constructor | kernel/src/smp/lock.rs:73-84 | sets up one node per CPU and a granted spare node, in arrays of its own |
| ClhLock.KernelLock.MarkPending | kernel/src/smp/lock.rs:106-112 | the CPU marks its node, as the protocol step specifies |
| ClhLock.KernelLock.SwapHead | kernel/src/smp/lock.rs:113-118 | swaps the head and returns a node, never null, as the protocol step specifies |
| ClhLock.KernelLock.StoreNext | kernel/src/smp/lock.rs:119-120 | remembers the node to wait for, as the protocol step specifies |
| ClhLock.KernelLock.Poll | kernel/src/smp/lock.rs:128-133 | enters exactly if the node ahead has been granted, as the protocol step specifies |
| ClhLock.KernelLock.Grant | kernel/src/smp/lock.rs:155-163 | hands the lock to the next CPU, as the protocol step specifies |
| ClhLock.KernelLock.Recycle | kernel/src/smp/lock.rs:164-167 | takes over the node it waited for, as the protocol step specifies |
| SchedulerRuns.NoThreadLost | sel4_task/src/scheduler.rs:766-889 | in every run each runnable thread is current, the pending candidate, or in the ready queue of its priority |
| SchedulerRuns.ScheduleChoosesBest | sel4_task/src/scheduler.rs:469-534 | whenever `schedule` returns, the current thread can run and no ready thread has a higher priority, although the direct switch may skip the bitmaps |
| SchedulerRuns.RunsFromBoot | kernel/src/boot/mod.rs:133-153 | both hold in every run from the state boot leaves: empty queues, and no runnable thread but the initial one, which is the pending candidate |
| SchedulerRuns.SuspendExample | sel4_task/src/tcb.rs:545-560 | suspending the initial thread before it has run breaks the invariant |
| SchedulerRuns.Boot | kernel/src/boot/mod.rs:133-153 | that state satisfies the invariant |
| SchedulerRuns.ScheduleKeeps | sel4_task/src/scheduler.rs:766-818 | `schedule` keeps the invariant and leaves no decision pending |
| SchedulerRuns.Next | sel4_task/src/scheduler.rs:766-917 | every step keeps the invariant |
| SchedulerRuns.Run | sel4_task/src/scheduler.rs:766-917 | every run keeps the invariant |
| SchedulerRuns.HighestCovers | sel4_task/src/scheduler.rs:376-385 | a priority is the highest exactly if no queued thread is above it |
| SchedulerRuns.PossibleSwitchInv | sel4_task/src/scheduler.rs:864-889 | making a thread the candidate, or queueing it, keeps every runnable thread reachable |
| SchedulerRuns.SetPriorityKeeps | sel4_task/src/tcb.rs:176-186 | changing a priority keeps the invariant |
| SchedulerRuns.TimerTickKeeps | sel4_task/src/scheduler.rs:893-917 | a timer tick keeps the invariant; `SliceEnds` says what a time slice of ticks does |
| SchedulerRuns.YieldKeeps | kernel/src/syscall/mod.rs:559-578 | yielding keeps the invariant |
| SchedulerRuns.WakeAllKeeps | sel4_ipc/src/endpoint.rs:123-170 | restarting all waiters of an object keeps the invariant |
| SchedulerRuns.SuspendKeeps | sel4_task/src/tcb.rs:545-560 | suspending a thread keeps the invariant exactly if it is not the pending candidate |
| SchedulerRuns.RestartKeeps | sel4_task/src/tcb.rs:588-617 | restarting a thread keeps the invariant |
| SchedulerRuns.RoundRobin | kernel/src/syscall/mod.rs:559-578 | after `k` yields the line of threads at the top priority has moved up by `k`: everyone runs once per round, in the same order |
| SchedulerRuns.YieldRotates | kernel/src/syscall/mod.rs:559-578 | a yield lets the thread run that has waited longest and puts the yielding one at the end |
| SchedulerRuns.BackRotates | sel4_task/src/scheduler.rs:469-534 | whenever the current thread is put at the end of its queue and a choice is made, the line moves up by one and nobody else changes |
| TimeSlices.TimerRoundRobin | sel4_task/src/scheduler.rs:893-917 | after `k` time slices, ended by the timer alone, the line of threads at the top priority has moved up by `k` |
| TimeSlices.SliceRotates | sel4_task/src/scheduler.rs:893-917 | the thread whose time slice ends goes to the end of the line with a full time slice, and whoever has waited longest runs |
| TimeSlices.SliceEnds | sel4_task/src/scheduler.rs:893-917 | the tick that uses up the time slice, and none before it, puts the thread with a full time slice at the end of its queue and asks for a choice |
| TimeSlices.SliceCountsDown | sel4_task/src/scheduler.rs:893-917 | fewer ticks than are left only count the time slice down |
| SchedulerEffects.StepEffect | sel4_task/src/scheduler.rs:766-917 | every operation gives the thread it is about the state, priority or time slice it should have, and changes no other thread's |
| SchedulerEffects.AlwaysSimple | sel4_task/src/scheduler.rs:766-818 | in every state any run from boot reaches, the direct switch of `schedule` makes the choice that going through the queues would make |
| SchedulerEffects.ScheduleIsSimple | sel4_task/src/scheduler.rs:766-818 | so it does in every state of the invariant in which a candidate that is also queued is first in its queue |
| SchedulerEffects.FirstKept | sel4_task/src/scheduler.rs:766-917 | every operation keeps such a candidate first |
| SchedulerEffects.WokenWaits | sel4_task/src/scheduler.rs:864-889 | a thread of the same or a lower priority that is woken waits, last or first in its queue, and does not disturb the current one |
| SchedulerEffects.WokenRuns | sel4_task/src/scheduler.rs:864-889 | a thread of a higher priority that is woken runs at once, and the current one waits first in its queue |
| SchedulerEffects.PreemptionRoundTrip | sel4_task/src/scheduler.rs:766-889 | when it blocks again everything is as before: the thread that was preempted runs on, ahead of those waiting behind it |
| SchedulerEffects.SecondWake | sel4_task/src/scheduler.rs:864-889 | a thread woken while a switch is pending: both go to the front of their queues and a new choice is asked for |
| SchedulerEffects.RestartedWaits | sel4_task/src/tcb.rs:588-617 | a thread of the same or a lower priority that is restarted waits first in its queue |
| SchedulerEffects.PriorityMoves | sel4_task/src/tcb.rs:176-186 | a ready thread whose priority is changed leaves its queue and waits behind the current thread with the new priority, or runs at once if it beats it |
| SchedulerEffects.WakeAllOrder | sel4_ipc/src/endpoint.rs:123-170 | all waiters go to the front of their queues, one after the other |
| Scheduler.HighestBelow | sel4_task/src/scheduler.rs:348-356 | the highest non-empty priority from a given one down |
| TcbQueue.Prepend | sel4_task/src/tcb_queue.rs:80-88 | puts a thread in front of a well-formed doubly linked list and changes no other links |
| TcbQueue.Append | sel4_task/src/tcb_queue.rs:90-98 | puts a thread at the end |
| TcbQueue.Remove | sel4_task/src/tcb_queue.rs:100-124 | takes a thread out from anywhere and leaves it unlinked |
| TcbQueue.EpAppend | sel4_task/src/tcb_queue.rs:18-28 | appends to an endpoint queue |
| TcbQueue.EpDequeue | sel4_task/src/tcb_queue.rs:60-72 | takes a thread out of an endpoint queue, whose own links stay stale |
| TcbQueue.EpAppendByPriority | sel4_task/src/tcb_queue.rs:30-57 | inserts behind all of the same or a higher priority: the queue stays sorted and is fair among equals |
| ReadyQueues.ScanIsHighest | sel4_task/src/scheduler.rs:348-356 | if the bitmaps match the queues, the two-level scan finds the highest priority with a queued thread |
| ReadyQueues.ScanBitmaps | sel4_task/src/scheduler.rs:348-356 | the scan with leading-zero counts returns that priority |
| ReadyQueues.LeadingZeros | sel4_task/src/scheduler.rs:348-356 | the count of leading zeros locates the highest one bit |
| ReadyQueues.AddBit | sel4_task/src/scheduler.rs:389-405 | setting both bits keeps the bitmaps matching when a queue becomes non-empty |
| ReadyQueues.RemoveBit | sel4_task/src/scheduler.rs:409-429 | clearing them keeps the bitmaps matching when it becomes empty, the first level only if its word is zero |
| ReadyQueues.Kernel.constructor | kernel/src/boot/mod.rs:133-153 | what boot leaves, on the first core and the others, with empty queues and bitmaps, satisfies the invariant of the runs |
| ReadyQueues.Kernel.SchedEnqueue | sel4_task/src/tcb.rs:262-312 | links, queue ends, flag and bitmaps together do what putting the thread first in its queue does; all stay consistent |
| ReadyQueues.Kernel.SchedAppend | sel4_task/src/tcb.rs:380-428 | the same for the end of the queue |
| ReadyQueues.Kernel.SchedDequeue | sel4_task/src/tcb.rs:345-376 | the same for taking it out |
| ReadyQueues.Kernel.AddToBitmap | sel4_task/src/scheduler.rs:389-405 | sets the two bits of a priority |
| ReadyQueues.Kernel.RemoveFromBitmap | sel4_task/src/scheduler.rs:409-429 | clears them |
| ReadyQueues.Kernel.GetHighestPrio | sel4_task/src/scheduler.rs:348-356 | the highest non-empty priority |
| ReadyQueues.Kernel.IsHighestPrio | sel4_task/src/scheduler.rs:376-385 | whether no queue above a priority has a thread |
| ReadyQueues.Kernel.RescheduleRequired | sel4_task/src/scheduler.rs:526-534 | queues a pending candidate and asks for a new choice |
| ReadyQueues.Kernel.PossibleSwitchTo | sel4_task/src/scheduler.rs:864-889 | as specified for the abstract queues |
| ReadyQueues.Kernel.SetThreadState | sel4_task/src/tcb.rs:1100-1103 | as specified for the abstract queues |
| ReadyQueues.Kernel.SetPriority | sel4_task/src/tcb.rs:176-186 | as specified for the abstract queues |
| ReadyQueues.Kernel.HandleYield | kernel/src/syscall/mod.rs:559-578 | as specified for the abstract queues |
| ReadyQueues.Kernel.TimerTick | sel4_task/src/scheduler.rs:893-917 | does to queues, links and bitmaps what a tick does to the abstract queues, described by `SliceEnds` |
| ReadyQueues.Kernel.SwitchToThis | sel4_task/src/tcb.rs:492-501 | takes the thread out of its queue and makes it current |
| ReadyQueues.Kernel.ChooseThread | sel4_task/src/scheduler.rs:469-521 | switches to the first thread of the highest priority, or to the idle thread |
| ReadyQueues.Kernel.Schedule | sel4_task/src/scheduler.rs:766-818 | does to queues, links and bitmaps what `schedule` is specified to do, and its assertion about the candidate holds |
| ReleaseQueue.ReleaseQueue.ReleaseEnqueue | sel4_task/src/tcb.rs:1048-1070 | inserts the thread and keeps the queue sorted by ready time; the insertion assertion fails exactly for a one-element queue with the same time; the timer is reprogrammed exactly if the thread became first |
| ReleaseQueue.ReleaseQueue.constructor | kernel/src/boot/mod.rs:164-170 | an empty queue, with all threads unlinked |
| ReleaseQueue.EnqueueTwice | sel4_task/src/tcb.rs:1048-1070 | the second of two threads with the same ready time fails the assertion |
| ReleaseQueue.ReleaseQueue.Awaken | sel4_task/src/scheduler.rs:555-582 | looking only at the head wakes exactly the threads due by the limit, in order, leaves them unlinked, and touches no links outside the queue |
| ReleaseQueue.ReleaseQueue.ReleaseRemove | sel4_task/src/tcb.rs:1033-1046 | takes exactly the thread out |
| ReleaseQueue.ReleaseQueue.ReleaseDequeue | sel4_task/src/tcb.rs:1120-1133 | takes the first thread out |
| ReleaseQueue.PlaceIsRight | sel4_task/src/tcb.rs:1106-1118 | the place found keeps the queue sorted, and is in front of the head only for a one-element queue |
| ReleaseQueue.PlaceAfter | sel4_task/src/tcb.rs:1106-1118 | everything before the place is not later, and the place is later or last |
| ReleaseQueue.FindTimeAfter | sel4_task/src/tcb.rs:1106-1118 | following the links finds that place |
| ReleaseQueue.QueueInsert | sel4_task/src/tcb.rs:1019-1031 | links a thread in front of another |
| ReleaseQueue.HeadIsFirst | sel4_task/src/scheduler.rs:555-582 | the head is the thread that is due first |
| CSpaceLookup.AgreeIffFits | kernel/src/kernel/fastpath.rs:28-63 | the fast walk agrees with the slow one on every address in every memory exactly if the CNode has no guard value without guard bits and no matchable guard without radix bits |
| CSpaceLookup.LookupAgrees | kernel/src/kernel/fastpath.rs:28-63 | for all capability graphs, cyclic ones included, the fast walk returns the capability in the slot the slow walk finds with 64 bits, or null when that faults |
| CSpaceLookup.LookupFp | kernel/src/kernel/fastpath.rs:28-63 | the loop terminates and returns that capability |
| CSpaceLookup.ResolveAddressBits | sel4_cspace/src/cte.rs:516-565 | the loop terminates and finds the slot the bit fields of the address stand for, although it subtracts before it knows the guard fits |
| CSpaceLookup.FastAgrees | kernel/src/kernel/fastpath.rs:28-63 | at every level, whatever bits are used up, both walks read the same guard and the same slot |
| CSpaceLookup.TopBits | kernel/src/kernel/fastpath.rs:44-52 | shifting out at the top and down again reads the bit field the slow walk masks out |
| CSpaceLookup.StrayGuard | kernel/src/kernel/fastpath.rs:46-48 | a guard value without guard bits makes the walks differ |
| CSpaceLookup.NoRadix | kernel/src/kernel/fastpath.rs:50 | with no radix bits the fast walk shifts by 64, that is by 0, and reads another slot |
| CSpaceLookup.UpdateDataFits | sel4_cspace/src/capability/mod.rs:85-96 | every guard a user can set fits, or the capability becomes null |
| CSpaceLookup.UpdateDataSets | sel4_cspace/src/capability/mod.rs:85-96 | every guard that fits beside the radix can be set, exactly, and nothing else changes |
| Capability.SameObjectMeans | sel4_cspace/src/capability/mod.rs:167-272 | two capabilities are the same object exactly if what they stand for, badges, guards and mapping data aside, is equal |
| Capability.SameObjectEquivalence | sel4_cspace/src/capability/mod.rs:259-272 | the comparison is symmetric and transitive |
| DerivationRuns.FinalIsGlobal | sel4_cspace/src/cte.rs:136-154 | in every state any run from boot reaches, looking at the two neighbours tells whether any other slot in the system holds a capability to the same object; where boot wrote several capabilities to scheduling control, for every other object |
| DerivationRuns.FinalEverywhereIff | kernel/src/boot/root_server.rs:405-416 | it tells so for every slot in every reachable state exactly if boot wrote at most one capability to scheduling control |
| DerivationRuns.TwoSchedControls | kernel/src/boot/root_server.rs:405-416 | with two of them each is taken for the last one |
| DerivationList.FinalIffOnly | sel4_cspace/src/cte.rs:136-154 | the neighbour check is right in every well-linked state, with that exception, and never calls a capability that is the only one not final |
| DerivationList.SwapIffApart | sel4_cspace/src/cte.rs:436-474 | swapping two slots keeps the lists exactly if they are not neighbours |
| DerivationList.SwapNeighboursLoops | sel4_cspace/src/cte.rs:436-474 | swapping neighbours leaves a slot linked to itself |
| DerivationList.SpliceOrdered | sel4_cspace/src/cte.rs:364-405 | an insertion puts the slot right behind its source and keeps capabilities to one object together |
| DerivationList.ExchangeOrdered | sel4_cspace/src/cte.rs:408-474 | a move or swap renames slots in place |
| DerivationList.EmptyOrdered | sel4_cspace/src/cte.rs:237-260 | emptying a slot takes it out of its list |
| DerivationList.EmptyUnlinks | sel4_cspace/src/cte.rs:237-260 | the neighbours are linked to each other and the successor inherits the first-badged mark |
| DerivationList.UpdateOrdered | sel4_cspace/src/cte.rs:175-190 | changing a capability in place keeps the lists if the object stays, or if the last capability to it gives it up |
| DerivationRuns.StepKeeps | sel4_cspace/src/cte.rs:237-474 | every operation keeps links mutual and capabilities to one object contiguous |
| DerivationRuns.InsertKeeps | sel4_cspace/src/cte.rs:364-391 | deriving a capability keeps the lists, also when the source is marked full; `InsertExactly` says what it does |
| DerivationRuns.AsFullLeavesNoRoom | sel4_cspace/src/cte.rs:495-509 | the source of a copy has no room left if both are to the same untyped block, and is otherwise unchanged |
| DerivationEffects.InsertExactly | sel4_cspace/src/cte.rs:364-391 | the destination holds the new capability, right behind the source, and can be revoked exactly if it is to memory, to an interrupt from the control capability, or has a new badge; the source has no room left if both are to the same untyped block and is unchanged otherwise; no other slot changes |
| DerivationEffects.InsertNewExactly | sel4_cspace/src/cte.rs:394-405 | a fresh capability stands right behind its parent with both marks; no other slot changes |
| DerivationEffects.EmptyUndoesInsert | sel4_cspace/src/cte.rs:237-391 | emptying the slot of a plain copy takes everything back, links and marks included |
| DerivationEffects.MoveExactly | sel4_cspace/src/cte.rs:408-433 | the marks go with the capability, and no other slot changes its capability or marks |
| DerivationEffects.MoveBack | sel4_cspace/src/cte.rs:408-433 | moving back undoes a move, links and marks included |
| DerivationEffects.SwapExactly | sel4_cspace/src/cte.rs:436-474 | the marks go with the capabilities, and no other slot changes its capability or marks |
| DerivationEffects.SwapBack | sel4_cspace/src/cte.rs:436-474 | swapping again undoes a swap of slots that are not neighbours |
| DerivationEffects.OthersLeftAlone | sel4_cspace/src/cte.rs:237-474 | no operation changes the capability of a slot it does not name; its first-badged mark changes only when its predecessor is emptied, which passes its own on |
| DerivationEffects.RunLeavesAlone | sel4_cspace/src/cte.rs:237-474 | nor does any run of operations that do not name it |
| DerivationRuns.EmptyKeeps | sel4_cspace/src/cte.rs:237-260 | emptying keeps them |
| DerivationRuns.RunKeeps | sel4_cspace/src/cte.rs:237-474 | every run keeps them |
| DerivationRuns.BootIsWellLinked | kernel/src/boot/utils.rs:51-61 | the slots written at boot, unlinked and to different objects except for scheduling control, are well linked |
| DerivationRuns.CSpace.constructor | kernel/src/boot/utils.rs:51-61 | starts from such slots |
| DerivationRuns.CSpace.CteInsert | sel4_cspace/src/cte.rs:364-391 | inserts the new capability, leaves the source without room if both are to the same untyped block and unchanged otherwise, and keeps the lists |
| DerivationRuns.CSpace.InsertNewCap | sel4_cspace/src/cte.rs:394-405 | does the specified insertion of a fresh capability |
| DerivationRuns.CSpace.CteMove | sel4_cspace/src/cte.rs:408-433 | does the specified move |
| DerivationRuns.CSpace.CteSwap | sel4_cspace/src/cte.rs:436-474 | does the specified swap; the lists survive exactly if the slots are not neighbours |
| DerivationRuns.CSpace.SetEmpty | sel4_cspace/src/cte.rs:237-260 | does the specified unlinking |
| DerivationRuns.CSpace.IsFinal | sel4_cspace/src/cte.rs:136-154 | true exactly if no other slot holds a capability to the same object, scheduling control of several cores apart; false only if one does |
| CallStackRuns.AnsweredCallsReturn | sel4_task/src/reply.rs:29-135 | whatever calls are made, nested to any depth, donating or not, once all are answered every context, stack and thread is as it was |
| CallStackRuns.FreshRun | sel4_task/src/reply.rs:22-135 | from new objects on, whatever happened before, integrity holds and calls that are all answered change nothing |
| CallStackRuns.ReplyUndoesCall | sel4_task/src/reply.rs:29-135 | answering a call undoes it exactly |
| CallStackRuns.RunKeeps | sel4_task/src/reply.rs:22-135 | over every run of calls, replies, cancellations and bindings, reply links are mutual, the context heads its stack, and contexts and threads are paired one to one |
| CallStackRuns.StepKeeps | sel4_task/src/reply.rs:22-135 | every operation keeps that |
| CallStackRuns.CallPushes | sel4_task/src/reply.rs:50-73 | a donating call pushes its reply on the stack of the lent context and on no other |
| CallStackRuns.ReplyPops | sel4_task/src/reply.rs:112-135 | answering the top reply pops it, answering a lower one cuts the stack there |
| CallStackRuns.CancelCuts | sel4_task/src/tcb.rs:1135-1160 | cancelling a caller cuts the stack there |
| CallStackRuns.StackDistinct | sel4_task/src/reply.rs:50-73 | no reply is twice on a stack |
| CallStackEffects.BindingsExactly | sel4_task/src/reply.rs:22-135 | a call lends the caller's context exactly if it may, the caller has one and the callee has none; an answer from the top of the stack brings it back to a caller without one; cancelling brings nothing back; nobody else gains or loses a context |
| CallStackEffects.WaitsExactly | sel4_task/src/reply.rs:22-135 | each operation makes just one thread wait for one reply, or ends just one wait, or neither |
| CallStackEffects.StacksStay | sel4_task/src/reply.rs:29-74 | a call that lends nothing, and everything but answers and cancellations, leaves all stacks alone |
| CallStackEffects.OtherStacksStay | sel4_task/src/reply.rs:112-135 | an answer or a cancellation leaves the stacks alone that its reply is not on |
| CallStackEffects.CancelKeepsContext | sel4_task/src/tcb.rs:1135-1160 | a call that is cancelled leaves its context with the callee, and caller, reply and stack empty |
| CallStack.PushNeedsFreeCallee | sel4_task/src/reply.rs:29-74 | under the assertions of `push`, integrity survives exactly if the callee has no reply object of its own |
| CallStack.PushExample | sel4_task/src/reply.rs:29-74 | a call to a thread that waits with a reply object of its own breaks integrity |
| CallStack.RemovedKeeps | sel4_task/src/reply.rs:112-135 | a reply keeps integrity |
| CallStack.RemovedTcbKeeps | sel4_task/src/tcb.rs:1135-1160 | a cancellation keeps integrity |
| CallStack.DonatedKeeps | sel4_task/src/sched_context.rs:353-375 | donating a context keeps contexts and threads paired |
| CallStackRuns.BindingKeeps | sel4_task/src/sched_context.rs:316-343 | binding and unbinding keep integrity |
| CallStackRuns.UnlinkedKeeps | sel4_task/src/reply.rs:22-28 | unlinking a reply that is in no stack keeps integrity |
| CallStackRuns.Objects.constructor | sel4_task/src/reply.rs:22-135 | new objects have integrity |
| CallStackRuns.Objects.SchedContextDonate | sel4_task/src/sched_context.rs:353-375 | moves the context from its thread to the new one |
| CallStackRuns.Objects.ReplyUnlink | sel4_task/src/reply.rs:22-28 | separates a reply and its thread |
| CallStackRuns.Objects.ReplyPush | sel4_task/src/reply.rs:29-74 | does the specified call; the assertions about the stack hold |
| CallStackRuns.Objects.ReplyPop | sel4_task/src/reply.rs:75-111 | does the specified pop; the new head points at the context |
| CallStackRuns.Objects.ReplyRemove | sel4_task/src/reply.rs:112-135 | does the specified removal |
| CallStackRuns.Objects.ReplyRemoveTcb | sel4_task/src/tcb.rs:1135-1160 | does the specified cancellation |
| IpcRuns.RunKeeps | sel4_ipc/src/endpoint.rs:103-300 | over every run an endpoint is idle exactly if its queue is empty, queues hold just the threads blocked there in that direction, every blocked thread is in one queue, and no thread waits to receive over a signal already there for it |
| IpcRuns.StepKeeps | sel4_ipc/src/endpoint.rs:103-447 | every operation keeps that |
| IpcRuns.FreshRun | sel4_ipc/src/notification.rs:151-280 | from new objects on, after every run queues and states agree, every signal was received or is pending, and what is pending was sent since the last reception |
| IpcRuns.FirstComeFirstServed | sel4_ipc/src/endpoint.rs:103-447 | in every run, as long as one thread stays in a queue, whoever came later stays behind it, unless its wait is cancelled |
| IpcRuns.OrderKept | sel4_ipc/src/endpoint.rs:103-447 | nobody overtakes: those who stay in a queue keep their order, and newcomers go to the end |
| IpcRuns.ServedInOrder | sel4_ipc/src/endpoint.rs:252-447 | whoever leaves a queue without being cancelled was the first in it |
| IpcRuns.BadgedExactly | sel4_ipc/src/endpoint.rs:176-230 | cancelling a badge restarts exactly the senders with that badge and touches no other |
| IpcEffects.CancelAllExactly | sel4_ipc/src/endpoint.rs:123-170 | cancelling everything at an object restarts exactly the threads in its queue, empties the queue and leaves the object not waiting; a pending signal and everything else stay |
| IpcEffects.CancelExactly | sel4_ipc/src/transfer.rs:73-108 | cancelling takes the thread out of the queue it waits in and stops it; one that waits in none is left alone |
| IpcEffects.SendExactly | sel4_ipc/src/endpoint.rs:242-300 | a message goes to the thread that has waited longest; the sender goes on, or waits for the reply to its call; without a receiver it waits with its message, or nothing happens |
| IpcEffects.ReceiveExactly | sel4_ipc/src/endpoint.rs:400-447 | receiving takes a pending signal, else the message of the sender that has waited longest, who goes on or waits for the reply; else the receiver waits, or gets nothing |
| IpcEffects.SignalExactly | sel4_ipc/src/notification.rs:151-235 | a signal goes to the bound thread if it waits to receive, else to the thread that has waited longest, else it is kept with those kept before |
| IpcEffects.WaitExactly | sel4_ipc/src/notification.rs:242-280 | waiting takes what is pending; else the thread waits, or gets nothing |
| IpcEffects.SenderServed | sel4_ipc/src/endpoint.rs:400-447 | a sender that leaves its queue without being cancelled has been received from, and the receiver has its badge |
| IpcEffects.ReceiverServed | sel4_ipc/src/endpoint.rs:242-300 | a receiver that leaves its queue without being cancelled has the badge of whoever sent |
| IpcEffects.UnbindUndoesBind | sel4_ipc/src/notification.rs:118-136 | unbinding undoes binding |
| IpcRuns.MeetInEitherOrder | sel4_ipc/src/endpoint.rs:242-447 | a sender and a receiver leave the same endpoint, states and badge whichever comes first |
| IpcRuns.NoSignalLost | sel4_ipc/src/notification.rs:151-280 | in every run what threads received together with what is pending is what was signalled, and what is pending is what was signalled since it was last received |
| IpcRuns.SignalStep | sel4_ipc/src/notification.rs:151-280 | each step adds a signal to what is pending or hands everything, once, to one thread that can run |
| IpcRuns.BindKeeps | kernel/src/syscall/invocation/decode/decode_tcb_invocation.rs:913-969 | what binding checks keeps the invariant exactly if, besides, the notification is not bound to another thread and has no signal for a thread that is already waiting |
| IpcRuns.BindTwiceExample | kernel/src/syscall/invocation/decode/decode_tcb_invocation.rs:913-969 | a notification bound to one thread passes the checks for another, which breaks the invariant |
| IpcRuns.UnbindKeeps | sel4_ipc/src/notification.rs:130-136 | unbinding keeps the invariant |
| IpcRuns.SendKeeps | sel4_ipc/src/endpoint.rs:242-300 | sending keeps the invariant |
| IpcRuns.ReceiveKeeps | sel4_ipc/src/endpoint.rs:400-447 | receiving keeps the invariant |
| IpcRuns.CancelKeeps | sel4_ipc/src/transfer.rs:73-108 | cancelling an operation keeps the invariant |
| IpcRuns.CancelAllKeeps | sel4_ipc/src/endpoint.rs:123-170 | cancelling all waiters keeps it; `CancelAllExactly` says what it does |
| IpcRuns.CancelBadgedKeeps | sel4_ipc/src/endpoint.rs:176-230 | cancelling a badge keeps it |
| IpcRuns.SignalKeeps | sel4_ipc/src/notification.rs:151-235 | signalling keeps it, also when the signal cancels the receive of the bound thread |
| IpcRuns.WaitKeeps | sel4_ipc/src/notification.rs:242-280 | waiting for a signal keeps it |
| IpcObjects.Objects.constructor | sel4_ipc/src/endpoint.rs:103-447 | new objects with empty queues represent the fresh state |
| IpcObjects.Objects.BindNotification | sel4_ipc/src/notification.rs:118-120 | binds the notification and the thread, as specified |
| IpcObjects.Objects.SafeUnbindTcb | sel4_ipc/src/notification.rs:130-136 | unbinds both, as specified |
| IpcObjects.Objects.SendIpc | sel4_ipc/src/endpoint.rs:242-300 | on linked queues, does the specified send |
| IpcObjects.Objects.ReceiveIpc | sel4_ipc/src/endpoint.rs:400-447 | does the specified receive, a pending signal first |
| IpcObjects.Objects.CompleteSignal | sel4_ipc/src/transfer.rs:337-364 | takes the pending signal exactly if there is one |
| IpcObjects.Objects.CancelIpc | sel4_ipc/src/transfer.rs:73-108 | does the specified cancellation through the object the thread waits for |
| IpcObjects.Objects.CancelAllWaiting | sel4_ipc/src/endpoint.rs:123-170 | empties the queue and restarts exactly its threads by following their old links, as `CancelAllExactly` describes |
| IpcObjects.Objects.CancelBadgedSends | sel4_ipc/src/endpoint.rs:176-230 | takes the matching threads out of the list it is following and leaves the others in order |
| IpcObjects.Objects.RestartBadged | sel4_ipc/src/endpoint.rs:186-226 | the loop restarts exactly the matching threads |
| IpcObjects.Objects.SendSignal | sel4_ipc/src/notification.rs:151-235 | does the specified signal |
| IpcObjects.Objects.ReceiveSignal | sel4_ipc/src/notification.rs:242-280 | does the specified wait |
| FreeMemory.ExactIff | kernel/src/boot/mm.rs:15-105 | for available regions in any order, what is handed out is available minus reserved exactly if no reserved region meets an available one after the sweep is done with it, which the regions alone decide |
| FreeMemory.AscendingLeak | kernel/src/boot/mm.rs:107-136 | in ascending order that means: no reserved region meets two available ones and starts where the first has no free address just below |
| FreeMemory.UnorderedExample | kernel/src/boot/mm.rs:129-131 | two available regions in the wrong order, of which a reserved part is handed out |
| FreeMemory.NoLeakIsExact | kernel/src/boot/mm.rs:42-95 | without such a leak every address is handed out exactly if it is available and not reserved |
| FreeMemory.LeakIsWrong | kernel/src/boot/mm.rs:58-65 | with one, a reserved address is handed out |
| FreeMemory.LeakExample | kernel/src/boot/mm.rs:58-65 | two regions and a reservation that leak |
| FreeMemory.FreeIsSafe | kernel/src/boot/mm.rs:42-95 | in any case no unreserved address is lost and nothing but available memory is handed out |
| FreeMemory.FreeAscending | kernel/src/boot/mm.rs:42-95 | for available regions in ascending order the regions handed out are not empty, ascending and disjoint |
| BootMemory.NdksBoot.RustInitFreemem | kernel/src/boot/mm.rs:15-105 | fails exactly if the input is bad or the table full, and changes nothing if it is bad; otherwise fills the table with exactly the specified regions; for disjoint available regions in any order without a leak it marks nothing but available and reserved memory, and all of it if the table of reserved regions has room |
| BootMemory.NdksBoot.InitSweep | kernel/src/boot/mm.rs:39-105 | the sweep over both lists does that |
| BootMemory.NothingTwice | kernel/src/boot/untyped.rs:13-43 | no address is both in a device block and in available, free or reserved memory |
| BootMemory.ClippedDisjoint | kernel/src/boot/mm.rs:32-37 | cutting disjoint regions off at the kernel window leaves them disjoint |
| BootMemory.ClippedCover | kernel/src/boot/mm.rs:32-37 | cutting off keeps exactly the addresses below the kernel window's end |
| BootMemory.NdksBoot.SweepOnce | kernel/src/boot/mm.rs:42-82 | each lap does one step of the specified sweep, in the table and in the list of marked regions |
| BootMemory.NdksBoot.MarkRest | kernel/src/boot/mm.rs:84-89 | marks the reserved regions that are left |
| BootMemory.NdksBoot.HandOutRest | kernel/src/boot/mm.rs:90-95 | hands out the available regions that are left |
| BootMemory.NdksBoot.InsertRegion | kernel/src/boot/mm.rs:159-185 | uses the first free slot, unless the region is empty, and marks the region if it overlaps nothing and there is room |
| BootMemory.NdksBoot.ReserveRegion | kernel/src/boot/mm.rs:188-229 | a region that overlaps no other leaves the list sorted and without touching regions, covering exactly the old addresses and the new ones; it fails, changing nothing, exactly if the region touches no other and the table is full; one that overlaps spoils the list unless the call fails |
| BootMemory.ReserveOverlapping | kernel/src/boot/mm.rs:188-229 | two overlapping regions after which the list is no longer in order |
| BootMemory.NdksBoot.MergeRegions | kernel/src/boot/mm.rs:231-246 | a sorted list becomes one without touching regions that covers the same addresses; a list without touching neighbours, sorted or not, is left alone |
| BootMemory.CheckAvailableMemory | kernel/src/boot/mm.rs:107-136 | accepts exactly non-empty lists of non-empty regions; a wrong order is not refused |
| BootMemory.CheckReservedMemory | kernel/src/boot/mm.rs:138-157 | accepts exactly ascending lists |
| BootMemory.Clip | kernel/src/boot/mm.rs:32-37 | cuts the regions off at the kernel window |
| BootSweep.SweepStep | kernel/src/boot/mm.rs:42-82 | a step of the sweep keeps what is marked within what was marked before, the finished reserved regions and the free regions, and equal to it if there is room; none of that is in a region still to be done |
| BootSweep.NotMarked | kernel/src/boot/mm.rs:42-82 | what is still to be done is not marked yet |
| Untyped.CutExact | kernel/src/boot/untyped.rs:80-112 | cutting a region gives aligned blocks of allowed sizes that do not overlap and cover exactly the 16-byte grains that lie wholly in the region |
| Untyped.CreateUntypedsForRegion | kernel/src/boot/untyped.rs:80-112 | terminates, and provides those blocks in order until providing one fails; its own checks of size and alignment never do |
| Untyped.ProvideUntypedCap | kernel/src/boot/untyped.rs:114-172 | refuses a block of a wrong size or alignment or outside the kernel window, or for want of a slot; leaves it out without an error for want of a boot-information entry |
| Untyped.ProvidedPrefix | kernel/src/boot/untyped.rs:114-172 | of blocks the kernel can see, as many are provided, in order, as there are entries and slots for; it fails exactly if the slots run out before the entries |
| Untyped.InvisibleStops | kernel/src/boot/untyped.rs:114-172 | a block outside the kernel window ends it with an error, whatever comes behind |
| Untyped.NextBlock | kernel/src/boot/untyped.rs:86-98 | each piece is aligned, fits and is not too large |
| Untyped.NextIsLargest | kernel/src/boot/untyped.rs:86-98 | no larger block of an allowed size starts there, is aligned and fits |
| Untyped.CutLargest | kernel/src/boot/untyped.rs:80-112 | so no block of a region can be made larger where it starts |
| Untyped.CreateDeviceUntypeds | kernel/src/boot/untyped.rs:13-43 | provides the blocks of all gaps between the reserved regions, up to the device top, until providing one fails |
| Untyped.DeviceBlocks | kernel/src/boot/untyped.rs:13-43 | those blocks are aligned, do not overlap, and cover exactly the whole grains of the gaps |
| Untyped.DeviceExact | kernel/src/boot/untyped.rs:13-43 | an address is in a device block exactly if its grain is below the end of device memory and free of reserved addresses |
| Untyped.GapsAreUnreserved | kernel/src/boot/untyped.rs:16-33 | the gaps are exactly the unreserved addresses below the end of device memory |
| Retype.UntypedBlock.Reset | kernel/src/syscall/invocation/invoke_untyped.rs:128-160 | after every chunk all bytes above the free offset are zero; a call ends with free index 0 or, preempted, with a smaller one |
| Retype.UntypedBlock.ResetCompletely | kernel/src/syscall/invocation/invoke_untyped.rs:128-160 | however often it is preempted, restarting the reset ends with free index 0 and all bytes zero |
| Retype.UntypedBlock.Retype | kernel/src/syscall/invocation/invoke_untyped.rs:162-195 | fails exactly if the aligned objects do not fit, otherwise places them one after the other, each aligned to its size, in zeroed memory above all existing objects and below the new free offset; existing bytes are touched only by a reset |
| Retype.UntypedBlock.ClearMemory | kernel/src/utils.rs:11-15 | zeroes exactly the given bytes |
| Retype.RoomIsExact | kernel/src/syscall/invocation/decode/decode_untyped_invocation.rs:116-142 | the check for room, made from the unaligned offset, is exact for the aligned objects |
| Retype.AlignUpFirst | kernel/src/syscall/utils.rs:30-32 | rounding up gives the first aligned offset that is not smaller |
| Retype.PlacedAligned | kernel/src/syscall/invocation/invoke_untyped.rs:20-45 | every new object starts at a multiple of its size and has its size |
| Retype.AlignedInMemory | kernel/src/syscall/invocation/decode/decode_untyped_invocation.rs:116-142 | so it does in memory, because the block does |
| Retype.MoreObjects | kernel/src/syscall/invocation/invoke_untyped.rs:20-45 | new objects overlap neither each other nor older ones |

## Left out

- Fast-path call and reply: only their capability lookup is modelled.
- The MCS variants of sending, receiving and signalling: fault and timeout handling and donation to and from notifications.
- Recursive deletion of CNodes and zombies: deletion is modelled as emptying a slot, and finalising as a change of a capability in place.
- `same_region_as` for untyped capabilities and for frames of different sizes, which the comparison of objects does not reach, and with it revocation.
- Page tables, address spaces, caches, interrupts, timers, registers other than the badge, message copying and system-call decoding.
- More than one scheduling domain, and scheduling across cores; the lock is modelled without its inter-processor interrupts.
- Thread-queue effects of binding scheduling contexts.
- CallStackRuns.Objects.SchedContextDonate: does not model that the donor is taken out of its queue and rescheduled.
- SchedContext.SchedContext.ChargeBudget: does not model the end of the time slice and the rescheduling of the thread, which concern the thread queues; the idle thread's context, which is not charged, is not modelled.
- ReleaseQueue.ReleaseQueue.Awaken: does not model the assertions on each woken thread, that it is not the current one and that its context is not round robin and has a sufficient head; that of the head is part of `RefillRuns.WellFormed`.
- RefillBandwidth.BudgetPerPeriod: for a context that is not round robin; time that is not charged, because the head lies past the maximum release time, does not count, and `RunningTime.RunningTimePerPeriod` is for runs in which that does not happen.
- RefillBandwidth.BudgetPerPeriodReconfigured: for reconfigurations that update the refills and do not make the context round robin; configuring a context anew gives it a whole budget at once.
- RefillExact.ChargeSupplyExact: for refills that lie within one period of the head, with room in the ring; in a full ring the tail is deferred, as `RefillExact.ScheduleUsedExact` says.
- Words used as bit maps or badges are sets of their one bits; addresses and CSpace pointers are natural numbers with explicit 64-bit shifts; refill arithmetic is on 64-bit words.
- SchedulerRuns.Next: a thread blocks or changes its own priority only while it runs and is not queued, as system calls do; suspending the pending candidate is excluded, because it breaks the assertion of `schedule`.
- SchedulerRuns.RunsFromBoot: threads that are created later are there from the start, inactive; so are the objects and threads in the runs of `IpcRuns` and `CallStackRuns`.
- RefillRuns.StepSafe: for one context and its core, while the time stays below the maximum release time; a context is dispatched only when its head is ready; at a preemption point whether the thread is schedulable is the choice between two steps.
- DerivationRuns.StepKeeps: a new capability is either to the object of its source or to an object nobody has a capability to yet, and does not come between two capabilities to one object, which retyping and interrupt-handler creation guarantee.
- CallStackRuns.StepKeeps: the callee's reply link is cleared before a call is pushed, as the callers do; whether a woken thread is running or restarted is not distinguished.
- IpcRuns.StepKeeps: a binding that breaks the invariant is excluded from runs; the operations of one thread at a time, which runs; other changes of thread state are one step that does not enter or leave a queue.
- BootMemory.NdksBoot.RustInitFreemem: what is marked when available regions overlap or a reserved region leaks is not described, because the list of marked regions is then spoilt; that the table of marked regions has room is a sufficient condition that does not count on regions being merged.
- BootMemory.NdksBoot.InsertRegion: a full table of free regions is excluded, as the code asserts; what is marked is described for a region that overlaps no marked one.
- BootMemory.NothingTwice: for a table of marked regions with room; the code ignores a full one.
- Untyped.CreateDeviceUntypeds: the part of `create_untypeds` for device memory; the blocks of recycled and of free memory are made by the same function.
- Retype.UntypedBlock.Retype: the contents of objects are arbitrary bytes; capabilities to them, and the test whether any are left, which decides on a reset, are left to the derivation lists.
