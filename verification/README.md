# RocketCo: a verified model

RocketCo is a stackful coroutine library: coroutines of one thread that share stacks, a poll and
condition-variable scheduler over epoll and a time wheel, a memory pool for the copies of evicted
stacks, and a hook layer over the blocking system calls. This project models those parts in Dafny and
proves what they keep over every run. `dafny verify dfyconfig.toml` checks all of it.

Code that updates objects in place is modelled by classes (`List`, `TimeWheel`, `Registry`, `Co_Epoll`,
`Co_Rountinue_Env`, `Cpu`, `RocketCoAlloctor`). Each method is proved equal to a function on values, and
the promises are proved of those functions, over all runs of them:

| part | state changed in place | on values | promises |
|---|---|---|---|
| shared stacks | `CoroutineEnv` | `SharedStack`, `CoroutineCalls` | `PrivateStacks`, `StackTheorems`, `RestoreTheorems`, `ReturnTheorems` |
| intrusive lists | `IntrusiveList`, `ListFamily` | sequences (`Sequences`) | the methods' own contracts |
| time wheel | `TimeWheelClass` | `WheelSpec` | `WheelSpec` |
| scheduler | `EventLoop`, `ConditionVariables` | `EventQueues`, `Scheduler` | `QueueInvariant`, `SchedulerInvariant`, `SchedulerTheorems`, `SchedulerTiming`, `QueueOrder` |
| contexts | `ContextSwap` | `ContextRuns` | `ContextRuns` |
| memory pool | `PoolClass` | `SizeClasses`, `PoolSpec` | `PoolInvariant`, `PoolLosses`, `PoolService` |
| poll and transfer hooks | `PollMerge` | `PollMerge`, `Transfer` | `PollMerge`, `Transfer` |

## How to read the models

- **Shared stacks.** A run is any sequence of byte stores, resumes, yields and finishes by whichever
  coroutine runs. `State.own` is the simplest account of private stacks: what each coroutine stored and
  its stack pointer still protects. It never looks at a buffer. `State.lost` marks bytes that a first
  entry wrote over. A coroutine stops at an arbitrary point: `ESP` bounds its live bytes and its saved
  `rsp` lies below. The main coroutine has a private stack like any other, which stands for the
  thread's own stack. A theorem asks for the invariant of the first state only (a created thread has it,
  `CreatedKeeps`). `Possible` asks of each later step no more than its own guard `Allowed`: the coroutine
  named exists, is not the main one and has not ended, the offsets lie in the buffer, the call stack has
  room. That the invariant holds after every step is what `PrivateStacks.StepKeeps` proves.
- **Scheduler.** Coroutine bodies are arbitrary sequences of library calls. A blocking call is cut at
  its `Co_yeild` into what runs before and what runs after. `Turn` is `EventLoop` up to the drain loop,
  `Drain` is one round of the drain loop with what the resumed coroutine does first.
- **Contexts.** The code between swaps may set all registers and all stack memory as it likes.
- **Pool.** What `malloc` would answer is a parameter of each request, `None` for failure. A run starts in
  a pool with the invariant, as a new one has it; after that, `Possible` asks only for positive lengths and
  for memory that was not given before.
- **Hooks.** The kernel is a function: which conditions hold on a descriptor, or what the k-th call
  answers when it is offered n bytes. `junk` is a second one: what the array that Co_poll_inner allocates
  and never initialises held for a descriptor.

## What is assumed

- The wheel has `DefaultSize` slots, as its default constructor makes it. The clock is positive, does
  not go back, and fits: neither `Now + timeout` nor `Now - Start + 1` wraps.
- Resumes nest to less than 256, and a coroutine that has ended does not get control again, by a resume
  or by a yield to it. Nobody resumes the main coroutine, which has no entry function.
- The loop runs on the main coroutine. Blocking calls are made by other coroutines. epoll reports only
  registered items. User code resumes coroutines that are not blocked in a wait (`DirectResumeIsSafeWhen`
  says what happens when it does not keep to that). Allocation returns fresh objects.
- Addresses do not wrap. Memory that the system gives does not overlap memory it gave before. The first
  argument of `RocketCoMalloc` is not 0, for which the index computation wraps.
- One call of the kernel's write or send answers less than 2^31.

## Where the code does not do what it is for

- Entering a coroutine for the first time writes its return address to the top of its stack before the
  occupant of that stack has been copied aside (lines 619 and 539 of Co_Routine.cpp). The occupant loses
  up to 8 bytes at that slot. `ByteKeptIff` says exactly when for one switch and `RegainsItsStackIff` for
  any run a coroutine is away, `CleanRunIff` says exactly which runs lose nothing, and
  `FirstEntryLosesAByte` gives a run. Every other byte is always kept.
- The poll hook turns a negative timeout into `INT32_MAX`, which the wheel refuses: an infinite poll
  returns -1 at once (`InfinitePollIsRefused`).
- Resuming a waiter directly can leave its freed item on a list (`DirectResumeIsSafeWhen`,
  `DirectResumeLeavesTimer`).
- Co_poll_inner copies back an array it never initialises, in which only descriptors that fired have been
  written (lines 706, 687 and 775). So an entry that reports nothing ends with arbitrary revents, and so
  does every entry of a refused poll that is not merged. `CopiedIsDirectIff` and, for merged polls,
  `SplitIsDirectIff` say exactly when the right answer comes out; `SplitReportsJunk` gives three entries
  where it does not.
- A merged poll drops error and hang-up conditions that were not requested (`OwnIsAllIff`), and it
  counts descriptors instead of entries (`MergedCountIsRightIff`).
- A leftover can be filed under a list with shorter slots (`LeftoverSlot`), 1536 bytes of one can be
  dropped (`RestIsFiledIff` says exactly when), and `Refill` can forget a leftover that was just filed:
  `RefillForgetsIff` says exactly when, `ARunForgets` gives three requests.
- A waiter that has timed out but is still queued loses its place in the active list to a later signal
  (`SignalMoves`); every other item is served in its turn (`ServedInOrder`).
- `send` retries after a first call that failed, `write` does not (their contracts differ in this).

## Model

| member | source | states |
|---|---|---|
| IntrusiveList.RemoveFromWheel | Co_Routine.cpp:145-174 | deletes the node from whichever list its Link names, a node on no list is left alone, links and owner of all other nodes stay consistent |
| IntrusiveList.AddTail | Co_Routine.cpp:177-192 | appends a node that is on no list, ignores one that is |
| IntrusiveList.Join | Co_Routine.cpp:195-217 | the target becomes the concatenation, the source becomes empty, all moved nodes name the target as owner |
| IntrusiveList.PopHead | Co_Routine.cpp:219-238 | drops the first node and clears its links, nothing on an empty list |
| IntrusiveList.Apart | Co_Routine.cpp:86-106 | two different lists share no node |
| ListFamily.Remove | Co_Routine.cpp:145-174 | over a whole family of disjoint lists, removes the node from the one list it is on and changes no other |
| ListFamily.Splice | Co_Routine.cpp:195-217 | Join keeps the whole family disjoint and changes only its two lists |
| TimeWheelClass.TimeWheel.constructor | Co_Routine.cpp:241-265 | a new wheel has DefaultSize empty slots and represents no entry |
| TimeWheelClass.TimeWheel.AddTimeOut | Co_Routine.cpp:267-291 | the slots represent the old entries and the new one; the call succeeds if and only if Start <= Now <= expiry and expiry - Start < 86400, and otherwise no entry changes; an item that is on a list already stays where it is |
| TimeWheelClass.TimeWheel.JoinSlots | Co_Routine.cpp:312-315 | the loop empties the slots it visits in index order, with wraparound, onto the given list |
| TimeWheelClass.TimeWheel.TakeOutTimeout | Co_Routine.cpp:293-320 | appends exactly the due entries in order, the slots represent the rest, also when the interval is clamped |
| TimeWheelClass.TimeWheel.Forget | Co_Routine.cpp:145-174 | unlinking a node from a slot list removes its entry from what the wheel represents |
| WheelSpec.ItemSlot | Co_Routine.cpp:284-289 | a held item sits in slot (Index + expiry - Start) mod N and in no other |
| WheelSpec.AddRepresents | Co_Routine.cpp:284-289 | one append to one slot represents the insertion |
| WheelSpec.DropRepresents | Co_Routine.cpp:145-174 | removing an item from its slot represents removing its entry |
| WheelSpec.TakeOutSlots | Co_Routine.cpp:303-319 | visiting min(Now - Start + 1, N) slots and moving Start and Index represents exactly the later entries, and collects the due ones by expiry |
| WheelSpec.TakeOutIsExact | Co_Routine.cpp:293-320 | an entry is moved out if and only if its expiry is at most Now |
| WheelSpec.TakeOutIsStableSort | Co_Routine.cpp:293-320 | what one call moves out is sorted by expiry, and by insertion within one expiry |
| WheelSpec.DueRangeDistinct | Co_Routine.cpp:312-315 | no item is moved out twice |
| ConditionVariables.Registry.ConditionVariableInit | Co_Routine.cpp:877-888 | a new condition variable has no waiter and disturbs no other |
| ConditionVariables.Registry.PopFromLink | Co_Routine.cpp:925-931 | takes the first waiter off its queue, null on an empty one |
| ConditionVariables.Registry.RemoveNode | Co_Routine.cpp:919 | takes a waiter off the one queue it may still be on |
| EventLoop.Co_Epoll.constructor | Co_Routine.cpp:475-479 | a new Co_Epoll has an empty wheel, empty links and no event items |
| EventLoop.Co_Epoll.Unlink | Co_Routine.cpp:145-174 | on all lists of the loop together, equals the function Unlink |
| EventLoop.Co_Epoll.AddActive | Co_Routine.cpp:692-696 | equals the function AddActive |
| EventLoop.Co_Epoll.CoPrepare | Co_Routine.cpp:684-697 | one event: counts it, and for the first of its poll takes the timer off and activates the item |
| EventLoop.Co_Epoll.PrepareAll | Co_Routine.cpp:815-823 | the loop over the epoll result |
| EventLoop.Co_Epoll.SetUpTimepoutLable | Co_Routine.cpp:795-801 | labels every item of the timeout list and nothing else |
| EventLoop.Co_Epoll.CollectTimeouts | Co_Routine.cpp:826-830 | due timers are labelled and appended to the active list, the timeout list ends empty |
| EventLoop.Co_Epoll.LoopTurn | Co_Routine.cpp:815-830 | a turn up to its drain equals PrepareAll then CollectTimeouts |
| EventLoop.Co_Epoll.NextActive | Co_Routine.cpp:832-841 | pops the next item to serve, null if and only if the active list is empty |
| EventLoop.Co_Epoll.PollEnter | Co_Routine.cpp:701-785 | a poll up to its yield: allocates its items and adds its timer; refused, with everything freed again, if and only if the timeout is negative, the clock early, or the expiry 86400 or more after Start |
| EventLoop.Co_Epoll.PollLeave | Co_Routine.cpp:767-785 | a poll after its yield: removes its timer, frees its items, returns the number of its events |
| EventLoop.Co_Epoll.WaitEnter | Co_Routine.cpp:896-914 | a wait up to its yield: always accepted without a timeout, and with one if and only if the clock is not early and the expiry less than 86400 after Start |
| EventLoop.Co_Epoll.WaitLeave | Co_Routine.cpp:919-922 | a wait after its yield: off its condition variable and freed |
| EventLoop.Co_Epoll.ConditionVariableSignal | Co_Routine.cpp:933-945 | moves the first waiter from queue and wheel to the active list, -1 if there is none |
| EventLoop.Co_Epoll.ConditionVariableBroadcast | Co_Routine.cpp:948-957 | moves every waiter in order |
| QueueInvariant.CoPrepareKeeps | Co_Routine.cpp:684-697 | an event keeps the queue invariant, whichever descriptor of a poll it is for |
| QueueInvariant.PrepareAllKeeps | Co_Routine.cpp:815-823 | so does a whole epoll result |
| QueueInvariant.CollectKeeps | Co_Routine.cpp:826-830 | so does collecting the due timers |
| QueueInvariant.PollEnterKeeps | Co_Routine.cpp:701-785 | so does starting a poll, accepted or refused |
| QueueInvariant.LeaveKeeps | Co_Routine.cpp:767-785 | so does the end of the wait whose entry was popped |
| QueueInvariant.WaitEnterKeeps | Co_Routine.cpp:896-914 | so does starting a condition wait |
| QueueInvariant.SignalKeeps | Co_Routine.cpp:933-945 | so does a signal, also to a waiter that has timed out onto the active list |
| QueueInvariant.BroadcastKeeps | Co_Routine.cpp:948-957 | so does a broadcast |
| SchedulerInvariant.StepKeeps | Co_Routine.cpp:585-957 | every step of the scheduler keeps the whole invariant |
| SchedulerInvariant.RunKeeps | Co_Routine.cpp:585-957 | so does every run |
| SchedulerTheorems.WokenOnce | Co_Routine.cpp:684-783 | in every run a wait has been woken exactly once and is gone, or not at all and its coroutine is blocked in it |
| SchedulerTheorems.DrainWakesOne | Co_Routine.cpp:832-850 | one round of the drain wakes one wait, returns the number of its events of this batch, 0 exactly for the timer, and leaves nothing it allocated on any list |
| SchedulerTheorems.OneEntryPerWait | Co_Routine.cpp:684-697 | no item is on two lists, no wait has two entries, and a wait has none if and only if it is an untimed condition wait that is still queued |
| SchedulerTheorems.NoUnexpectedError | Co_Routine.cpp:837-839 | the report cannot be reached in any run |
| SchedulerTheorems.DrainEndsEmpty | Co_Routine.cpp:834-851 | a drain ends if and only if both links are empty |
| SchedulerTheorems.FinishedNeverRuns | Co_Routine.cpp:602-611 | a coroutine whose function has returned is on the call stack in no later state of any run |
| SchedulerTheorems.YieldUndoesResume | Co_Routine.cpp:585-624 | a yield gives control back to the resumer and leaves the coroutine ready to be resumed again |
| SchedulerTheorems.PollRefusedWhen | Co_Routine.cpp:267-287 | a poll is refused if and only if its timeout is negative or its expiry is 86400 or more after Start; refused, it changes no item, queue or list; accepted, it blocks its caller |
| SchedulerTheorems.PollEnters | Co_Routine.cpp:706-759 | an accepted poll adds one timer under call time plus timeout and one fresh item for each descriptor, and changes nothing else |
| SchedulerTheorems.WaitRefusedWhen | Co_Routine.cpp:895-916 | a condition wait without a timeout is always started; one with a timeout is refused if and only if its expiry is 86400 or more after Start; started, its caller is blocked and last in the queue, with a timer only if it is timed; refused, nothing has changed |
| SchedulerTheorems.InfinitePollIsRefused | hook.cpp:145-147 | the timeout that stands for an infinite poll is always refused |
| SchedulerTheorems.DirectResumeIsSafeWhen | Co_Routine.cpp:614-624 | resuming a waiter directly leaves nothing freed on a list if and only if no descriptor of its poll has fired, or its wait is on no list |
| SchedulerTheorems.DirectResumeLeavesTimer | Co_Routine.cpp:895-922 | a run in which a directly resumed timed waiter leaves its freed item in the wheel |
| SchedulerTiming.SleepsWhileEarly | Co_Routine.cpp:825-849 | a poll without descriptors is not woken in any turn before its expiry, whatever others do |
| SchedulerTiming.SleepEndsOnTime | Co_Routine.cpp:753-770 | it is woken with result 0 in the first turn whose clock is at least call time plus timeout |
| SchedulerTiming.DrainServes | Co_Routine.cpp:834-849 | what is active during a drain has been woken when the drain is over |
| SchedulerTiming.SignalActivates | Co_Routine.cpp:933-945 | a signal takes the first waiter off its queue and activates it |
| SchedulerTiming.TurnServesActive | Co_Routine.cpp:816-841 | a waiter signalled between turns is served by the next one |
| QueueOrder.SignalMoves | Co_Routine.cpp:925-945 | a signal takes the first waiter off its queue, the wheel and the active list and appends it to the active list; all other queues, entries and items stay as they were, in order |
| QueueOrder.BroadcastMoves | Co_Routine.cpp:948-957 | a broadcast appends all waiters in the order in which they wait, after what else was active, and leaves the queue empty |
| QueueOrder.CoPrepareMoves | Co_Routine.cpp:684-697 | one event: the first of its poll takes the timer off the wheel and goes to the end of the active list, a later one moves nothing |
| QueueOrder.TurnMoves | Co_Routine.cpp:810-830 | a turn appends the first event of each poll in the order of the epoll result, and then what is due by expiry, without the timers of those polls; what stays on the wheel is what is later and not of those polls |
| QueueOrder.DrainMoves | Co_Routine.cpp:832-850 | one round of the drain takes the head off the active list, keeps the rest in order, and frees just the items of the wait it ends |
| QueueOrder.ServedInOrder | Co_Routine.cpp:832-850 | of two items active in a drain the wait of the first returns before that of the second, whatever the resumed coroutines do, unless the first can still be signalled |
| SharedStack.SwapSparesOthers | Co_Routine.cpp:519-583 | a switch changes no live byte of a coroutine that is not switched to, in the buffer or in a copy |
| SharedStack.SwapSeesOwn | Co_Routine.cpp:519-583 | a coroutine that regains control finds its bytes from ESP on as they were |
| CoroutineCalls.SwapCoInv | Co_Routine.cpp:519-583 | a switch leaves the runner as occupant of its shared stack and every displaced coroutine with a copy of stack_bp - ESP bytes |
| CoroutineCalls.StepKeepsMachineInv | Co_Routine.cpp:585-624 | every store, resume, yield and finish keeps that |
| PrivateStacks.MakeSees | coswap.cpp:130-146 | preparing a first entry shows in the top slot of the occupant of the stack and nowhere else |
| PrivateStacks.StepFrame | Co_Routine.cpp:585-624 | a step pushes or pops the call stack, moves only the ESP of the one that stops, marks only the one that starts or ends, and keeps every stack where it is |
| PrivateStacks.StepView | Co_Routine.cpp:519-624 | what a switch does to each byte of any started coroutine: nothing, but for that slot |
| PrivateStacks.StepKeeps | Co_Routine.cpp:519-624 | every step keeps the refinement of private stacks |
| StackTheorems.SharedStacksArePrivate | Co_Routine.cpp:494-624 | every run on shared stacks that starts in a valid state is a run on private stacks, step by step, and ends in a valid state |
| StackTheorems.RunKeeps | Co_Routine.cpp:494-624 | the invariant, assumed of the first state only, holds after every run |
| StackTheorems.ReadsItsOwn | Co_Routine.cpp:494-624 | after any run from a valid state a coroutine reads what it last stored, unless the byte is in the top slot and lost |
| StackTheorems.NewThreadIsPrivate | Co_Routine.cpp:454-624 | from init_thisThread_Env on, what coroutines read is what the same run on private stacks holds, but for lost bytes |
| StackTheorems.EvictedIsSaved | Co_Routine.cpp:494-541 | after any run from a valid state a started coroutine occupies its stack, or its Used_Stack has stack_bp - ESP bytes and they are its live bytes |
| StackTheorems.ByteKeptIff | Co_Routine.cpp:614-624 | a switch keeps a byte if and only if it is not a first entry on a stack the coroutine occupies that puts another byte there |
| StackTheorems.CleanRunIff | Co_Routine.cpp:494-624 | a run loses no byte in any of its states if and only if it has no first entry on an occupied stack |
| StackTheorems.RegainsItsStackIff | Co_Routine.cpp:571-582 | a coroutine that gives up control and regains it finds a byte from ESP to stack_bp as it was, however long the run in between, if and only if no step of the run is a first entry on the stack it occupies that puts another byte there |
| StackTheorems.FirstEntryLosesAByte | Co_Routine.cpp:614-624 | a run of three steps in which a stored byte is lost |
| StackTheorems.CreatedKeeps | Co_Routine.cpp:454-479 | the state after init_thisThread_Env is valid, so that runs can start there |
| RestoreTheorems.GuardFiresIff | Co_Routine.cpp:574-582 | for a started coroutine that waits, the restore guard fires when it regains control if and only if another one occupied its stack before some step of the run, over any run from a valid state |
| RestoreTheorems.MainStays | Co_Routine.cpp:462-472 | slot 0 of the call stack is the main coroutine after every run from a valid state, and the stack has 1 to 256 entries |
| RestoreTheorems.CallersStay | Co_Routine.cpp:585-624 | over any run from a valid state, while the call stack has at least n entries its first n do not change |
| RestoreTheorems.ReturnsToResumer | Co_Routine.cpp:585-624 | a yield or finish hands control to whoever resumed the coroutine last, for any nesting and any run in between |
| RestoreTheorems.FinishedNeverRuns | Co_Routine.cpp:602-611 | a coroutine that has finished does not run again, in any run |
| ReturnTheorems.StepReturns | coctx_swap.S:61-65 | after every switch the buffer of the coroutine that gets control holds its return address, 8 bytes, at its saved rsp |
| ReturnTheorems.GoesOnWhereItStopped | coctx_swap.S:31-65 | a coroutine that stops at a point has, when it regains control after any run, the rsp, the ESP and at rsp the return address of that point, also if others stored over them meanwhile |
| ReturnTheorems.EntersAtTop | coswap.cpp:130-146 | a coroutine entered for the first time finds pfn at the top slot of its stack |
| CoroutineEnv.Co_Rountinue_Env.constructor | Co_Routine.cpp:454-479 | the call stack of a new thread holds the main coroutine, one of its coroutines; if none of them has been used, the machine is in the created state from which the runs above start |
| CoroutineEnv.Co_Rountinue_Env.Copy_stackMember | Co_Routine.cpp:494-516 | sets aside the bytes from ESP to stack_bp and changes nothing else |
| CoroutineEnv.Co_Rountinue_Env.OccupyStack | Co_Routine.cpp:526-541 | equals the function Occupy |
| CoroutineEnv.Co_Rountinue_Env.RestoreStack | Co_Routine.cpp:574-582 | equals the function Restore |
| CoroutineEnv.Co_Rountinue_Env.co_swap_Co | Co_Routine.cpp:519-583 | the objects after a switch equal SwapCo of the objects before |
| CoroutineEnv.Co_Rountinue_Env.Co_resume | Co_Routine.cpp:614-624 | equals the step Resume of the runs above |
| CoroutineEnv.Co_Rountinue_Env.Co_yeild | Co_Routine.cpp:589-598 | equals the step Yield |
| CoroutineEnv.Co_Rountinue_Env.Co_realRunningFun | Co_Routine.cpp:602-611 | equals the step Finish |
| ContextSwap.co_swap_t.constructor | coswap.cpp:148-150 | an initialised context is all zero |
| ContextSwap.Cpu.SaveRegisters | coctx_swap.S:31-48 | fills the record with the registers and the return address |
| ContextSwap.Cpu.LoadRegisters | coctx_swap.S:50-65 | enters the context of the record and pushes its return address |
| ContextSwap.Cpu.coctx_swap | coctx_swap.S:31-65 | both, also from a context to itself |
| ContextSwap.Cpu.co_swap_make | coswap.cpp:130-146 | the record and the stack slot of a made context |
| ContextRuns.RoundTrip | coctx_swap.S:31-65 | over any run, a context that is left and entered again returns to its caller with rsp past the return address and all callee-saved registers, and the others of the record, as they were, whatever was written to its slot |
| ContextRuns.SwapToSelf | coctx_swap.S:31-65 | a swap to itself returns at once and changes no memory |
| ContextRuns.EntersFirst | coswap.cpp:130-146 | a made context enters pfn with rdi = s, rsi = s1, rsp mod 16 = 8 and all other registers zero, however late |
| ContextRuns.EntryInBuffer | coswap.cpp:131-137 | its slot is inside the buffer if and only if the buffer holds an aligned word |
| SizeClasses.SlotLengthIncreases | RocketCoMemoryPool/RocketCoAlloctor.cpp:50-65 | slot length is strictly increasing in the index |
| SizeClasses.IndexOfSlotLength | RocketCoMemoryPool/RocketCoAlloctor.cpp:50-81 | the two index functions are inverse if and only if the length is at most ThirdSlot |
| SizeClasses.AlignmentIsSlotLength | RocketCoMemoryPool/RocketCoAlloctor.cpp:67-105 | an aligned length is at least the request and is the slot length of its list |
| SizeClasses.AlignmentIsShortest | RocketCoMemoryPool/RocketCoAlloctor.cpp:83-105 | no shorter slot holds the request |
| SizeClasses.AlignmentUnits | RocketCoMemoryPool/RocketCoAlloctor.cpp:83-105 | rounding goes up to the next multiple of 512 up to 8 KiB, of 1024 up to 32 KiB and of 2048 up to 128 KiB |
| SizeClasses.LeftoverSlot | RocketCoMemoryPool/RocketCoAlloctor.cpp:385-402 | a leftover is at least as long as the slots of its list, and exactly as long if and only if it is at most SecondSlot or a multiple of 2048 |
| SizeClasses.SecondLeftover | RocketCoMemoryPool/RocketCoAlloctor.cpp:388-411 | what remains is 0, 512, 1024 or, dropped, 1536 bytes |
| PoolSpec.ChunkAllocIs | RocketCoMemoryPool/RocketCoAlloctor.cpp:368-434 | ChunkAlloc calls itself at most once, on both paths, because its second try always has more than one block |
| PoolSpec.Count | RocketCoMemoryPool/RocketCoAlloctor.cpp:373-382 | between 1 and the wanted number of blocks, as many as fit |
| PoolInvariant.FileRestKeeps | RocketCoMemoryPool/RocketCoAlloctor.cpp:385-412 | filing the leftovers keeps every block, list and range disjoint |
| PoolInvariant.ReuseKeeps | RocketCoMemoryPool/RocketCoAlloctor.cpp:418-427 | so does taking the head of a longer list as the unused range |
| PoolInvariant.ChunkAllocKeeps | RocketCoMemoryPool/RocketCoAlloctor.cpp:368-434 | a non-null chunk covers length * number bytes of one system chunk, apart from all blocks and the unused range |
| PoolInvariant.RefillKeeps | RocketCoMemoryPool/RocketCoAlloctor.cpp:317-366 | the pieces of a chunk are disjoint, one is returned and is in no list, and the others are the list |
| PoolInvariant.MallocKeeps | RocketCoMemoryPool/RocketCoAlloctor.cpp:133-165 | a returned block is at least as long as the request and new to the caller, and the invariant holds again |
| PoolInvariant.FailsIff | RocketCoMemoryPool/RocketCoAlloctor.cpp:368-434 | an allocation fails if and only if its list is empty, at most one block is unused, the system fails and no longer list has a block |
| PoolInvariant.RunIsSafe | RocketCoMemoryPool/RocketCoAlloctor.cpp:133-165 | over every run from a pool with the invariant no block handed out overlaps another one, a listed block or the unused range, each lies in one chunk, and the invariant holds again |
| PoolInvariant.NewPoolIsSafe | RocketCoMemoryPool/RocketCoAlloctor.cpp:36-165 | so it is for every run from a new pool, with nothing assumed of the pools in between |
| PoolService.ServedFromList | RocketCoMemoryPool/RocketCoAlloctor.cpp:142-164 | a request whose list is not empty gets the head of it, and the other lists, the unused range, the chunks and the blocks stay |
| PoolService.ServedFromRange | RocketCoMemoryPool/RocketCoAlloctor.cpp:317-434 | a request whose list is empty is cut out of the unused range, or twice 20 blocks from the system, or the head of the first list with longer blocks, with 20 blocks or as many as fit and the rest left unused; it fails without any of them |
| PoolService.ServedBySystem | RocketCoMemoryPool/RocketCoAlloctor.cpp:134-137 | a request above 128 KiB goes to the system and leaves the pool alone |
| PoolService.OtherListsStay | RocketCoMemoryPool/RocketCoAlloctor.cpp:383-424 | serving an empty list keeps every other list in order, but for the one head that is reused and parts of the unused range put before it |
| PoolService.NoListedBlockIsLost | RocketCoMemoryPool/RocketCoAlloctor.cpp:133-434 | after any request a listed block is still listed, or is the answer, or is the longer block that was reused |
| PoolService.RestIsFiledIff | RocketCoMemoryPool/RocketCoAlloctor.cpp:385-407 | every byte of the unused rest is filed, but for the last 1536 if and only if the rest is above 32 KiB and 512 more than a multiple of 2048 |
| PoolLosses.RefillForgetsIff | RocketCoMemoryPool/RocketCoAlloctor.cpp:341-411 | refilling an empty list forgets a block just filed if and only if the unused rest is one block of that very length and the new chunk, from the system or from a longer list, has more than one |
| PoolLosses.ARunForgets | RocketCoMemoryPool/RocketCoAlloctor.cpp:133-434 | requests for 512, 8192 and 2048 bytes on a new pool, after which 2048 bytes are in no list and with no caller |
| PoolClass.RocketCoAlloctor.UseRemainingSpace | RocketCoMemoryPool/RocketCoAlloctor.cpp:436-450 | the nodes in memory are the lists with the new block at the head, next, slot and length; its prev is null, the prev of the old head names it, and its length is marked at its end |
| PoolClass.RocketCoAlloctor.ChunkAlloc | RocketCoMemoryPool/RocketCoAlloctor.cpp:368-434 | equals the function ChunkAlloc, and terminates |
| PoolClass.RocketCoAlloctor.LinkPieces | RocketCoMemoryPool/RocketCoAlloctor.cpp:341-362 | the loop builds the chain of all pieces but the first, inside the chunk: next, prev, slot, length and end mark of each |
| PoolClass.RocketCoAlloctor.Refill | RocketCoMemoryPool/RocketCoAlloctor.cpp:317-366 | equals the function Refill |
| PoolClass.RocketCoAlloctor.RocketCoMalloc | RocketCoMemoryPool/RocketCoAlloctor.cpp:133-165 | equals the function Malloc, the chains in memory are the lists |
| PoolClass.RocketCoAlloctor.CallerWrites | RocketCoMemoryPool/RocketCoAlloctor.cpp:133-165 | a caller that writes into its block disturbs no list |
| PollMerge.Merge | hook.cpp:156-169 | distinct descriptors, each with the union of its requests, found by the map; nothing merged if and only if no descriptor repeats |
| PollMerge.Co_poll_inner | Co_Routine.cpp:701-785 | the count, or -1 if the timer is refused; an entry that fired gets its conditions, every other one what the uninitialised array held |
| PollMerge.SplitAnswer | hook.cpp:178-182 | each entry gets what Co_poll_inner left for its descriptor, masked with its own request |
| PollMerge.poll | hook.cpp:135-186 | the result and all revents on every path, merged or not, refused or not, where an entry that did not fire has what the uninitialised array held |
| PollMerge.SplitIsDirectIff | hook.cpp:178-182 | after a merged poll an entry holds what polling it alone would report of its request if and only if an entry for its descriptor fired or the uninitialised memory has none of its requested bits |
| PollMerge.CopiedIsDirectIff | Co_Routine.cpp:769-776 | for a poll that is not merged, if and only if the entry reports something or the memory happens to hold the right answer |
| PollMerge.SplitReportsJunk | hook.cpp:178-182 | of three entries for two descriptors one reports a condition that does not hold |
| PollMerge.OwnIsAllIff | hook.cpp:178-182 | what polling an entry reports of its request is all it reports if and only if no unrequested condition holds |
| PollMerge.MergedCount | hook.cpp:170-176 | a merged poll counts the ready descriptors |
| PollMerge.MergedCountIsRightIff | hook.cpp:170-176 | that is the count of ready entries if and only if no descriptor is reported by two |
| Transfer.write | hook.cpp:371-410 | the bytes taken are a prefix of the buffer, once and in order; a positive result is their number; a short result means the last call took nothing |
| Transfer.send | hook.cpp:607-642 | the same, with its retry after a first failure |
| Transfer.AllSentIff | hook.cpp:384-410 | everything is sent if and only if the last call made progress, and the result says so |
| Transfer.SumIsPositive | hook.cpp:405-410 | nothing was taken if and only if every call answered 0 or less |

## Left out

- Freeing and coalescing in the pool (RocketCoFree, MergeData, MoveToFreeList) and the table of marked
  blocks only they read: marking is incomplete, so runs with frees do not keep the intended invariant.
- PoolInvariant.RunIsSafe: claims disjointness and size, not that no byte is lost; see PoolLosses.RefillForgetsIff.
- EventLoop.Co_Epoll.CoPrepare: counts the event, cancels the timer and activates the item; the revents stored
  at line 687 are not in its contract but in that of PollMerge.Co_poll_inner.
- EventLoop.Co_Epoll.PollEnter: leaves out the epoll registration and its failure arm (lines 733-746), which
  hands a small poll to the system, and the copy of the revents after a refusal, which is in
  PollMerge.Co_poll_inner. It allocates the items of every poll; a small poll of a coroutine on a shared
  stack, whose items lie on that stack and may be evicted, is not modelled.
- EventLoop.Co_Epoll.PollLeave: leaves out the removal from epoll and the copy of the revents (lines 774-775);
  what is copied is in PollMerge.Co_poll_inner.
- CoroutineEnv.Co_Rountinue_Env.constructor: leaves out Epoll_, whose construction is EventLoop.Co_Epoll.constructor,
  and the creation of the main coroutine, which is given.
- The flag translation between poll and epoll, which starts from an uninitialised result.
- The user callback that can end EventLoop: it only decides whether another turn follows.
- Real epoll, sockets, dlsym, fcntl, connect, environment variables and descriptor attributes.
- Compiler frame layout: ESP and the saved rsp are arbitrary offsets.
- CoroutineEnv.Co_Rountinue_Env.Copy_stackMember: Used_Stack is a value, because a copy is filled once
  and never written again; the allocation of its memory is the pool's part.
- Stack-size rounding and the choice of a shared stack at creation, the i386 branches, thread-local
  lifetime, and the demos and benchmarks.
