# Argobots, modelled and proved in Dafny

Argobots runs user-level threads (ULTs) on execution streams (ESs). This project models the parts of
its runtime in which the order of single memory accesses matters, the data structures under them, and
two of its example programs, and proves what they promise. `dafny verify dfyconfig.toml` checks it all.

The memory is taken to be sequentially consistent, counters are mathematical integers, and reals stand
for doubles. A context switch is one step, and allocation succeeds.

## How the models are built

Code that runs concurrently is a state machine over values. A state holds the shared words and, for each
ULT or ES, a program counter; `Ready`, `Can` or `CanStep` says which steps are enabled, `Next` computes
the state that follows, and a `Run` is any finite sequence of steps of any number of ULTs, ESs, pools,
tables or blocks from an initial state. The main results speak of every state of every run. Some states
carry a word that the program does not have (who claimed a bit first, where a ULT is); the comments say so.
What holds in every run does not say that an operation does anything. So the modules named `...Alone` state
for each operation, in terms of the state before and the state after, what it does from its call to its end
when nobody else takes a step in between; `Leads` and `Solo` relate the two by the steps of one agent only.
Code that works on a structure under one lock is a class, and each of its methods is proved against a
function on values, about which the lemmas are.

| files | what they model |
|---|---|
| `MutexProtocol`, `MutexInvariant`, `MutexTheorems` | the three-valued mutex: lock, lock_low, trylock, spinlock, unlock, unlock_se with its hand-over, wait, wake_de |
| `MutexPass`, `MutexStreams` | the end of a wake pass among the steps of others; the mutex on ESs that run one ULT at a time |
| `MutexAlone`, `MutexWakeAlone` | what each operation of the mutex does undisturbed; the wake pass as the pass on values |
| `WaitRows`, `WaitTable` | the waiter table on values, and on the heap with its linked queues and rings of rows |
| `JoinProtocol`, `JoinTheorems`, `JoinAlone` | join against the termination of the joined ULT |
| `UltProtocol`, `UltInvariant`, `UltTheorems`, `UltAlone` | the life of a ULT between pools, ESs and wakers; num_blocked |
| `TaskPage`, `TaskPageTheorems`, `TaskPageLoss`, `TaskPageAlone` | a page of task blocks with its local and remote free lists; when it loses blocks, and when it is released |
| `StackPool`, `StackChains`, `StackPoolInvariant`, `StackPoolTheorems`, `StackPoolAlone` | the stack lists, down to their pointers |
| `StackPage` | the layout of a stack page |
| `Stencil`, `StencilGrid`, `StencilTheorems`, `StencilEnds`, `StencilCheck` | the parallel stencil example |
| `Fibonacci`, `FibonacciRecords` | the task-tree example, as a whole and record by record |
| `UnitQueue`, `FifoPool` | the intrusive circular list, and the FIFO pool on it |
| `CondQueue`, `CondVar` | the condition variable on values and on the heap |
| `RwLock`, `RwLockAlone` | the readers-writer lock |
| `KeyTable`, `KeyLife` | key tables on the heap, and the reference count of a key |
| `Barrier` | the barrier |
| `SchedConfig` | packing and reading scheduler configurations |
| `Basics`, `Counting` | sequences and counting |

Choices that the code leaves open: a wait pass makes at least one wake-up, as the environment code
guarantees (`argobots/src/arch/abtd_env.c:148` asserts it). The rank of the ES that a ULT runs on is chosen
anew in each mutex step that looks it up; in `MutexStreams` it is that of the one ES that the ULT is on. In
the waiter table a row's high and low halves, which have the same fields and the same code, are one class. In
`JoinProtocol` the joined ULT is named, so its end stores TERMINATED; a joiner may call join along either path.

Where the code and its comments differ, the models follow the code: the comment above
`ABTI_sched_config_read` calls the parameters read for type 0 private, while the code reads those with a
negative index; `ABT_key_create` documents that a value is set to NULL before its destructor is called,
which the code does not do.

## Results that say when the code does not keep a promise

* num_blocked. `KeptExactlyWhen` proves that a step keeps every pool's counter right if and only if it is not
  a decrement for a ULT that has been moved to another pool since its waker pushed it;
  `MigrationMiscounts` gives a run after which one pool counts 1 and another -1 with nobody blocked.
* Free task blocks. `LosesExactlyWhen` proves that an ES that gives a page up, or adopts one, loses all blocks
  of p_head if p_head and p_free are both non-empty when it tests p_free, and none otherwise;
  `FreeBlocksAreLost` gives a run of two ESs on a page of three blocks that loses one. An allocation never
  loses any (`AllocationLosesNothing`).
* Removal from a FIFO pool. `Pool.Remove` proves that the pool, and the one the unit is in, stay as they should
  be if and only if the unit is refused or is in this pool: a unit of another pool is unlinked all the same.
* The barrier. `Object.Wait` proves that it stays usable if and only if the call is not refused: a refused
  caller leaves it locked, with one arrival too many.

## Model

| member | source | states |
|---|---|---|
| MutexTheorems.MutualExclusion | argobots/src/mutex.c:461-556 | at every moment of every run the mutex has at most one owner (a holder, an unlocker before its store of 0, the receiver of a hand-over), val is not 0 exactly when it has one, and no row's hand-over count exceeds max_handovers |
| MutexTheorems.HandoverIsSafe | argobots/src/mutex.c:535-556 | between the switch to the receiver and its push of the giver the receiver owns the mutex and val is not 0, there is one giver, and the only step that frees it is that push, which leaves the receiver holding |
| MutexTheorems.NoWakeupIsLost | argobots/src/mutex.c:649-816 | whoever is queued, or past the re-check of val and about to be, has val at 2 or another ULT on its way to wake it, to hand over, or to exchange val with 2 |
| MutexTheorems.NobodyIsStranded | argobots/src/mutex.c:649-816 | if every ULT is outside the mutex or waits for it, then val is 0 and nobody waits |
| MutexTheorems.NoDeadlock | argobots/src/include/abti_mutex.h:118-210 | while nobody holds the mutex, a ULT inside one of its operations implies an enabled step of some ULT that is inside |
| MutexTheorems.OnlyTheReceiverFreesTheGiver | argobots/src/include/abti_mutex.h:153-166 | a giver leaves its switched-out state only by the push of the owner that received the mutex |
| MutexTheorems.StepKeeps | argobots/src/mutex.c:177-258 | every step of every ULT keeps the invariant: table lock, places of waiters, counts, ownership, hand-over, limits, scan of the table, no lost wake-up |
| MutexTheorems.RunKeeps | argobots/src/include/abti_mutex.h:88-99 | the invariant holds in every state of every run from a new mutex |
| MutexInvariant.SwitchKeeps | argobots/src/mutex.c:535-552 | the switch of a hand-over makes its target the owner with val not 0 at any moment |
| MutexInvariant.GiverKeeps | argobots/src/include/abti_mutex.h:157-165 | the receiver's push makes the giver ready and keeps the invariant |
| MutexInvariant.PushKeeps | argobots/src/mutex.c:678-696 | queueing oneself under the table lock keeps the invariant |
| MutexInvariant.SwitchLowKeeps | argobots/src/mutex.c:205-216 | lock_low taking the place of a low-priority waiter, who goes on, keeps the invariant |
| MutexInvariant.PopKeeps | argobots/src/thread_htable.c:172-218 | a pop by unlock_se or by a wake pass keeps the invariant; the popped ULT is held by its popper alone |
| MutexInvariant.ReadyKeeps | argobots/src/mutex.c:807-815 | making a popped waiter ready keeps the invariant |
| MutexInvariant.DrainedStrandsNobody | argobots/src/mutex.c:767-772 | a wake pass that finds the table empty under its lock leaves nobody queued or about to be |
| MutexPass.PassEnds | argobots/src/mutex.c:764-806 | in every run, a wake pass that has the table lock is always ready for its next step, and takes at most twice as many steps as rows are linked, and four more, until it gives the lock back, whatever other ULTs do |
| MutexPass.OthersLeaveTheLists | argobots/src/mutex.c:519-530 | no step of another ULT links or unlinks a row during a pass, or moves the ULT in the pass |
| MutexPass.FruitlessFixUnlinks | argobots/src/mutex.c:775-786 | an iteration of the scan that has popped nobody unlinks the empty row at the head, and only that |
| MutexPass.OwnStepCounts | argobots/src/mutex.c:774-803 | every step of the ULT in the pass brings the end of the pass nearer |
| MutexStreams.SwitchLowNeverWaits | argobots/src/thread_htable.c:220-257 | on ESs that run one ULT at a time, the head of a low-priority queue that lock_low switches to has always been switched out, although the code does not look |
| MutexStreams.StepAtHome | argobots/src/mutex.c:193-216 | a ULT that works on a row, or is queued and not switched out yet, stays on the ES of that row |
| MutexAlone.Calls | argobots/src/include/abti_mutex.h:118-192 | lock and lock_low can always be called; trylock and spinlock take a free mutex at once |
| MutexAlone.OneWay | argobots/src/include/abti_mutex.h:118-210 | but for the choice of a call a ULT has one next step, so what it does undisturbed is determined |
| MutexAlone.LockHeld | argobots/src/include/abti_mutex.h:143-148 | undisturbed, lock or lock_low of a mutex that somebody has sets val to 2 and waits, switched out, at the end of the row of its ES, which is linked at the end of its list unless it is linked already, and counted |
| MutexAlone.FreedInBetween | argobots/src/mutex.c:678-683 | a caller that finds the mutex freed in between takes it, or gives the table lock back without queueing itself |
| MutexAlone.LockLow | argobots/src/mutex.c:202-216 | lock_low on a row with low-priority waiters lets the first go on and takes the last place, and on an empty one goes the way of lock |
| MutexAlone.TryAgain | argobots/src/include/abti_mutex.h:147-169 | a ULT that was woken without a hand-over takes a free mutex, and queues itself again if it is not free, with val at 2 either way |
| MutexAlone.Receive | argobots/src/include/abti_mutex.h:153-165 | the receiver of a hand-over has the mutex with val at 2, the hand-over is cleared, and its giver is ready again |
| MutexAlone.UnlockQuiet | argobots/src/include/abti_mutex.h:202-208 | unlock and unlock_se of a mutex with val 1 free it, and do nothing else |
| MutexAlone.UnlockContended | argobots/src/include/abti_mutex.h:202-205 | with val 2, unlock frees the mutex and begins a wake pass, and unlock_se looks at its row first |
| MutexAlone.HandsToHigh | argobots/src/mutex.c:507-519 | with a hand-over left and two high-priority waiters in its row, unlock_se hands the mutex to the first of them: val stays above 0, the giver is switched out, the receiver goes on, the row's hand-over is counted |
| MutexAlone.HandsToLow | argobots/src/mutex.c:509-533 | with a hand-over left, at most one high-priority waiter in its row, no row linked for them and two low-priority ones in its row, it hands the mutex to the first low-priority one |
| MutexAlone.EmptiedInBetween | argobots/src/mutex.c:517-519 | unlock_se that finds its row emptied in between looks at it anew, and lock_low goes the way of lock |
| MutexAlone.NoHandover | argobots/src/mutex.c:488-529 | in every other case it frees the mutex and begins a wake pass, after which the hand-over count is to be reset exactly when no hand-over was left |
| MutexWakeAlone.WakePassAlone | argobots/src/mutex.c:755-816 | in every run, a wake pass that nobody disturbs leaves queues and lists as the pass on values does, has woken the ULTs that one wakes, and they only, as many as max_wakeups or as there were, and has reset the hand-over count if that was due |
| WaitRows.RoundRobin | argobots/src/mutex.c:774-800 | a linked row with a waiter, k places behind the head, is served within k + 1 wake-ups or emptied by hand-overs, whatever arrivals, hand-overs and switches of low-priority callers come in between |
| WaitRows.EventKeeps | argobots/src/thread_htable.c:172-242 | arrivals, hand-overs and switches move no waiting row in the list, and only a hand-over can empty one |
| WaitRows.WakePassSpec | argobots/src/mutex.c:755-816 | n wake-ups wake the smaller of n and the number of waiters, high-priority ones first; the low side is touched only when no high one is queued |
| WaitRows.SkippedInv | argobots/src/mutex.c:775-786 | unlinking the empty rows at the head finds a waiter if and only if there is one |
| WaitRows.WakeInv | argobots/src/mutex.c:774-786 | a wake-up takes one waiter out if there is one and changes no queue otherwise, and every non-empty row stays linked |
| WaitRows.WakeMovesUp | argobots/src/mutex.c:775-786 | a wake-up that serves another row brings a waiting row forward and leaves its queue alone |
| WaitTable.TableSide.constructor | argobots/src/thread_htable.c:9-36 | a new table has empty rows, none linked |
| WaitTable.TableSide.AddNode | argobots/src/include/abti_thread_htable.h:75-90 | an unlinked row goes to the end of the circular doubly linked list |
| WaitTable.TableSide.DelNode | argobots/src/include/abti_thread_htable.h:92-111 | the head row leaves the circular list, and its links are cleared |
| WaitTable.TableSide.Link | argobots/src/mutex.c:685-687 | linking a row keeps queues, ring and order in agreement; a linked row stays where it is |
| WaitTable.TableSide.PushTail | argobots/src/thread_htable.c:54-84 | the ULT becomes the last of the row's linked queue, and the other rows stay as they are |
| WaitTable.TableSide.Pop | argobots/src/thread_htable.c:172-194 | the first ULT of the row leaves its linked queue; an empty row gives none |
| WaitTable.TableSide.SwitchHead | argobots/src/thread_htable.c:220-242 | the caller takes the last place of a non-empty row and the first ULT leaves; an empty row is left alone |
| WaitTable.TableSide.TryHead | argobots/src/mutex.c:776-786 | one iteration of the scan: the head row gives its first ULT and moves to the end, or is empty and leaves the list |
| WaitTable.TableSide.Scan | argobots/src/mutex.c:774-786 | the scan ends, has unlinked exactly the empty rows at the head, and pops a ULT if and only if one is queued |
| WaitTable.TableSide.Enqueue | argobots/src/mutex.c:685-693 | linking and pushing is the arrival of the ULT in its row, and adds one to the number of waiters |
| WaitTable.TableSide.Wakeup | argobots/src/mutex.c:774-786 | the scan on the heap is one wake-up of the table as a value |
| WaitTable.WaiterTable.EnqueueHigh | argobots/src/mutex.c:685-693 | the queue part of wait: an arrival on the high side, num_elems counts it, the low side is untouched |
| WaitTable.WaiterTable.EnqueueLow | argobots/src/mutex.c:738-746 | the queue part of wait_low: an arrival on the low side |
| WaitTable.WaiterTable.WakeNext | argobots/src/mutex.c:769-808 | one iteration wakes the next high-priority ULT, or the next low-priority one when no high one is queued, and num_elems stays the sum of all rows |
| WaitTable.WaiterTable.WakeDe | argobots/src/mutex.c:755-816 | a whole pass wakes, in this order, the ULTs that the pass on values wakes, and leaves the table that it leaves |
| JoinTheorems.AtMostOneBlocks | argobots/src/thread.c:376-414 | at most one joiner takes the blocking path, the one that set the JOIN bit; the target resumes nobody else and nobody twice; join returns only when the target is TERMINATED |
| JoinTheorems.NobodyBlocksAfterTheTargetClaims | argobots/src/arch/abtd_thread.c:93-104 | once the terminating target has set the JOIN bit first, no joiner blocks, then or later |
| JoinTheorems.ClaimIsFinal | argobots/src/thread.c:376-384 | who claimed the JOIN bit never changes, and a resumption is never undone |
| JoinTheorems.ResumptionIsSafe | argobots/src/arch/abtd_thread.c:70-104 | a joiner is resumed, by a jump or a push, only when it is switched out, BLOCKED, with its BLOCK request reset, in no pool, on no ES and not resumed before; a jump stays on its ES |
| JoinTheorems.NobodyIsLeftBlocked | argobots/src/arch/abtd_thread.c:64-104 | when the target is gone, every joiner is in the pool or on an ES and none has a BLOCK request left |
| JoinTheorems.NothingPutsItOff | argobots/src/arch/abtd_thread.c:64-104 | no step of any ES adds to the steps that a terminating target has left |
| JoinTheorems.SomeStepHelps | argobots/src/arch/abtd_thread.c:96-103 | until a terminating target is TERMINATED some ES can take a step that lessens them: neither wait loop is entered in vain; none are left exactly when it is TERMINATED and gone |
| JoinTheorems.StepKeeps | argobots/src/thread.c:304-414 | every step of every ES keeps the invariant of the handshake |
| JoinAlone.Calls | argobots/src/thread.c:304-328 | join of a TERMINATED target is over at once, and takes the path it is called along otherwise |
| JoinAlone.FirstBlocks | argobots/src/thread.c:376-390 | undisturbed, the first to set the JOIN bit ends up switched out and BLOCKED, with its BLOCK request reset, and its name in the link |
| JoinAlone.OthersYield | argobots/src/thread.c:379-414 | who finds the JOIN bit set goes back to the pool while the target is not TERMINATED, and is done when it is |
| JoinAlone.ComesBack | argobots/src/thread.c:392-414 | a joiner that was jumped to is RUNNING and done at once; one that came through a pool is done when the target is TERMINATED |
| JoinAlone.EndsUnjoined | argobots/src/arch/abtd_thread.c:93-96 | a target without a joiner sets both bits and is TERMINATED by its scheduler |
| JoinAlone.EndsByJump | argobots/src/arch/abtd_thread.c:70-81 | with a joiner that was last on its ES it is TERMINATED and the joiner runs there in its stead |
| JoinAlone.EndsByPush | argobots/src/arch/abtd_thread.c:82-91 | with a joiner of another ES it pushes that joiner, READY, to its pool, and is TERMINATED by its scheduler |
| JoinAlone.WaitsForTheLink | argobots/src/arch/abtd_thread.c:94-102 | a target that finds the JOIN bit set but no link waits for the link |
| JoinAlone.EndsLinked | argobots/src/arch/abtd_thread.c:100-104 | when the link is there and its joiner is switched out, it pushes the joiner and is TERMINATED |
| UltTheorems.NeverInTwoPlaces | argobots/src/stream.c:1920-2054 | in every state of every run a ULT is on one ES at most, in one pool at most and there once, and not both |
| UltTheorems.NeverLost | argobots/src/thread.c:1813-1888 | a live ULT that is on no ES and in no pool sleeps with its context saved and its BLOCK request reset, and exactly one waker has it or it still waits to be taken |
| UltTheorems.OnlySavedContexts | argobots/src/thread.c:1860-1880 | a ULT in a pool, one that a scheduler has taken up, and one that a waker is about to push has its context saved; the waker finds it BLOCKED and off every ES |
| UltTheorems.KeptExactlyWhen | argobots/src/thread.c:1876-1880 | a step keeps num_blocked of every pool right if and only if it is not a decrement for a ULT that has left the pool it was pushed to |
| UltTheorems.NumBlockedIsExact | argobots/src/include/abti_pool.h:46-57 | without migration requests, num_blocked is the number of the pool's blocked ULTs plus the wakers between push and decrement |
| UltTheorems.MigrationMiscounts | argobots/src/stream.c:2134-2190 | a run with one migration after which the counters are 1 and -1 while nobody is blocked |
| UltInvariant.StepKeeps | argobots/src/stream.c:1920-2040 | every step of creation, scheduling, yield, block, wake, migration and termination keeps the invariant |
| UltInvariant.StepWaker | argobots/src/thread.c:1860-1888 | while a waker has a ULT, no step of another wakes, publishes or moves that ULT |
| UltAlone.TerminationIsFinal | argobots/src/stream.c:1994-2001 | in every run, a ULT that has asked to terminate keeps its request, is in no pool and with no waker from then on, runs no further than to its scheduler, is TERMINATED once it is on no ES, and then stays so |
| UltAlone.AlmostThere | argobots/src/stream.c:1994-2001 | the ES it is on can always take its next step, and makes it TERMINATED by the second at the latest |
| UltAlone.Exits | argobots/src/stream.c:1994-2001 | a ULT that finishes is TERMINATED after its scheduler's look at it, whatever other request it has, and the ES looks for work |
| UltAlone.Schedules | argobots/src/stream.c:1920-1976 | a ULT taken out of a pool runs if no migration is asked for; else it goes to the pool asked for without running, and the request is spent |
| UltAlone.Yields | argobots/src/stream.c:2007-2026 | a ULT that yields is back in its pool, READY and saved, or in the pool its migration was asked for |
| UltAlone.Blocks | argobots/src/thread.c:1813-1855 | a ULT that blocks ends up in no pool and on no ES, BLOCKED, saved, counted once by its pool and findable by its waker; a migration request stays |
| UltAlone.WakesUp | argobots/src/thread.c:1860-1888 | a waker brings a sleeping ULT back to its pool, READY, and the pool counts one blocked ULT less |
| TaskPageTheorems.TheSumIsKept | argobots/src/mem/malloc.c:489-556 | blocks in use, num_empty_blks, num_remote_free, uncounted frees and a count being moved always add up to num_total_blks |
| TaskPageTheorems.CountsAddUp | argobots/src/mem/malloc.c:107-118 | when an ES that gives up its pages finds the counts equal to the total, no block is in use and no other ES is in code that touches the page |
| TaskPageTheorems.ReleasedOnlyWhenUnused | argobots/src/mem/malloc.c:96-142 | a released page has no block in use or being freed, and no ES touches it again |
| TaskPageTheorems.NotHandedOutTwice | argobots/src/include/abti_mem.h:294-348 | the block that an allocation takes is there, is free, is being freed by nobody, and is in no list afterwards |
| TaskPageTheorems.LostExactlyWhen | argobots/src/mem/malloc.c:502-524 | the number of lost blocks changes exactly by a take_free that overwrites a non-empty p_head, and then by the length of that list; no other step of owners or freers loses or recovers a block |
| TaskPageLoss.LosesExactlyWhen | argobots/src/mem/malloc.c:117-119 | giving a page up or adopting one loses all blocks of p_head if p_head and p_free are both non-empty when p_free is tested, and none if either is empty, whatever other ESs free meanwhile |
| TaskPageLoss.FreeBlocksAreLost | argobots/src/mem/malloc.c:570-575 | a run after which nobody is in any operation and a free block is in neither list |
| TaskPageLoss.StepProgress | argobots/src/mem/malloc.c:489-513 | no step of another ES touches p_head while take_free is under way, and a retry of its compare-and-swap drops nothing more |
| TaskPageTheorems.AllocationLosesNothing | argobots/src/include/abti_mem.h:311-324 | take_free within an allocation finds p_head empty |
| TaskPageTheorems.CountersGiveTheLengths | argobots/src/mem/malloc.c:493-500 | while pages are taken from only to allocate, the two counters and the operations under way give the length of the two free lists |
| TaskPageTheorems.StepKeeps | argobots/src/include/abti_mem.h:294-380 | every step of owners and remote freers keeps the invariant |
| TaskPageAlone.ReleasedExactlyWhen | argobots/src/mem/malloc.c:107-116 | in every run, an owner that gives its page up while nobody is in an operation on it releases the page if and only if no block is in use |
| TaskPageAlone.GivesUp | argobots/src/mem/malloc.c:117-140 | a page that is not released becomes global, with the remote list and its count taken over if there is one |
| TaskPageAlone.Adopts | argobots/src/mem/malloc.c:558-579 | an ES that adopts a page owns it and takes a block of the remote list, or else of the local one, or none if both are empty |
| TaskPageAlone.Allocates | argobots/src/include/abti_mem.h:305-330 | an allocation takes the first block of p_head and counts it |
| TaskPageAlone.AllocatesFromRemote | argobots/src/include/abti_mem.h:311-330 | with p_head empty it takes the remote list and its count over first; with both empty it leaves the page as it is |
| TaskPageAlone.Retries | argobots/src/mem/malloc.c:502-556 | a compare-and-swap that comes too late changes nothing and is tried again from the read on |
| TaskPageAlone.FreesLocally | argobots/src/include/abti_mem.h:352-380 | the owner puts a freed block in front of p_head and counts it |
| TaskPageAlone.FreesRemotely | argobots/src/mem/malloc.c:527-556 | any other ES puts it in front of p_free and counts it there |
| StackChains.Drop | argobots/src/include/abti_mem.h:199-207 | taking the first stack leaves a list that holds exactly the others |
| StackChains.Add | argobots/src/mem/malloc.c:316-344 | a push whose p_next is the current head makes a list of the old stacks and the new one, whatever has happened to that head before |
| StackPoolInvariant.TakeLists | argobots/src/mem/malloc.c:270-314 | a successful compare-and-swap takes over the whole list as it is at that moment, even if its head has come back meanwhile |
| StackPoolInvariant.WalkEnds | argobots/src/mem/malloc.c:303-311 | the walk over a taken list ends at its last stack, after as many steps as there are stacks behind the first |
| StackPoolInvariant.StepKeeps | argobots/src/mem/malloc.c:270-344 | every step keeps every pointer list intact and every stack in one place |
| StackPoolTheorems.TheListsAreSound | argobots/src/mem/malloc.c:210-344 | every head pointer leads through a finite list of distinct stacks, no stack is in two lists or in one while a ULT has it, and num_stacks is the length of the list |
| StackPoolTheorems.NeverHandedOutTwice | argobots/src/include/abti_mem.h:199-223 | a stack that a step gives to a ULT, from a list or from a new page, is new or was with none, and is in no list afterwards; a step gives no other stack to a ULT |
| StackPoolTheorems.NoStackIsLost | argobots/src/include/abti_mem.h:271-291 | stacks with ULTs or on their way, stacks in lists and stacks counted back are all the stacks of all pages |
| StackPoolTheorems.EveryPageIsWhole | argobots/src/mem/malloc.c:81-101 | when all is finalized and no ULT is left, every page has num_empty_stacks equal to num_total_stacks |
| StackPoolAlone.AllocatesLocal | argobots/src/include/abti_mem.h:199-207 | an allocation hands out the first stack of the local list, with its p_next cleared |
| StackPoolAlone.AllocatesGlobal | argobots/src/mem/malloc.c:270-314 | without one, it takes the whole global list: its first stack is handed out, the others are the local list, and num_stacks is their number |
| StackPoolAlone.AllocatesPage | argobots/src/mem/malloc.c:607-681 | without that, a new page gives its first stack, and the others, in the order of their addresses, are the local list |
| StackPoolAlone.Frees | argobots/src/include/abti_mem.h:283-290 | a freed stack goes to the front of the local list while num_stacks is at most mem_max_stacks, and to the front of the global list otherwise |
| StackPoolAlone.Retries | argobots/src/mem/malloc.c:270-344 | a compare-and-swap that comes too late changes nothing and is tried again from the read on |
| StackPoolAlone.GivesBack | argobots/src/mem/malloc.c:96-101 | an ES that ends counts each stack of its list back to its page, once, and is left with none |
| StackPoolAlone.GivesAllBack | argobots/src/mem/malloc.c:78-94 | at the end each stack of the global list is counted back likewise |
| StackPage.RegionsTileThePage | argobots/src/mem/malloc.c:634-669 | for every page id, stack size and header size a byte is in one of the header slots and stacks if and only if it is in the first num_stacks times stacksize bytes of the page, and in one only |
| StackPage.AllocSp | argobots/src/mem/malloc.c:607-669 | the loop gives every header its own stack and all but the first their successor, returns the first, and leaves the ES the list of the others with its length |
| StackPage.TheListVisitsTheRest | argobots/src/mem/malloc.c:643-669 | following the pointers from the second header visits each header but the first once, and ends |
| StackPage.RegionsAreDisjoint | argobots/src/mem/malloc.c:634-669 | no byte belongs to two regions |
| StackPage.RegionsCoverThePage | argobots/src/mem/malloc.c:634-669 | every byte of the tiled range belongs to a region |
| StencilTheorems.EveryInterleavingIsJacobi | argobots/examples/stencil_thread_cond.c:172-209 | for all block sizes, numbers of blocks and iterations, every interleaving leaves after each iteration the values of as many sequential Jacobi sweeps, in every cell |
| StencilTheorems.ReadsAreOld | argobots/examples/stencil_thread_cond.c:56-61 | a block that is still computing reads only values of the sweep before |
| StencilTheorems.NotOverwritten | argobots/examples/stencil_thread_cond.c:112-170 | no neighbour of a cell is overwritten before the cell's block has read it |
| StencilTheorems.SomeStepIsEnabled | argobots/examples/stencil_thread_cond.c:112-163 | until the main ULT has ended, some ULT can take a step |
| StencilTheorems.SweepsKeepSymmetry | argobots/examples/stencil_thread_cond.c:56-61 | over the reals sweeps keep both mirror symmetries |
| StencilEnds.EveryStepCounts | argobots/examples/stencil_thread_cond.c:49-175 | in every run each step lessens what its block, or the main ULT, has left in the iteration, or ends an iteration: no loop goes round in vain, and every run comes to an end |
| StencilEnds.EvenGridStays | argobots/examples/stencil_thread_cond.c:60-75 | a sweep leaves a grid whose values grow evenly along both axes, so also a constant one, as it is |
| StencilGrid.Facing | argobots/examples/stencil_thread_cond.c:63-163 | the flag that a block waits for on a side is the one that the block there signals, and the other way round |
| StencilGrid.BlocksPartition | argobots/examples/stencil_thread_cond.c:182-197 | every interior cell is in exactly one block |
| StencilCheck.Check | argobots/examples/stencil_thread_cond.c:220-232 | the loops succeed if and only if all mirror images differ by less than the tolerance |
| StencilCheck.CheckSucceeds | argobots/examples/stencil_thread_cond.c:234-302 | after any run of the program the mirror images agree |
| StencilCheck.HereIsInjective | argobots/examples/stencil_thread_cond.c:25-30 | different cells of the grid have different places in the flat array |
| Fibonacci.TheResultIsRight | argobots/examples/fibonacci_task.c:50-128 | whatever the order of the tasks, the eventual is set at most once, to Fib(n), and until then results and debts add up in every record |
| FibonacciRecords.EachRecordOnce | argobots/examples/fibonacci_task.c:96-128 | in every run each record receives at most one aggregate from either child, none if it has no children, and is freed at most once; at the end each inner record of the tree of calls has received both and each record has been freed |
| FibonacciRecords.AtReceives | argobots/examples/fibonacci_task.c:107-113 | an aggregate task delivers to its own parent record and to no other, wherever in the tree it is |
| Fibonacci.EveryScheduleTakesTheSameSteps | argobots/examples/fibonacci_task.c:50-128 | every schedule ends after the same number of steps, and then the eventual is set and every record that was created has been freed |
| Fibonacci.AtKeeps | argobots/examples/fibonacci_task.c:96-128 | a task at any place in the tree keeps what the tree owes, accounts for the records it creates and leaves, and takes one step off the work |
| Fibonacci.SomeTaskIsReady | argobots/examples/fibonacci_task.c:50-93 | an unfinished tree has a ready task |
| Fibonacci.Verify | argobots/examples/fibonacci_task.c:160-173 | the checking loop computes Fib(n) |
| UnitQueue.Queue.Append | argobots/src/pool/fifo.c:163-189 | a unit goes to the end of the ring, whose links, head, tail and length then are those of the longer sequence |
| UnitQueue.Queue.TakeHead | argobots/src/pool/fifo.c:217-247 | the first unit leaves the ring and its links are cleared |
| UnitQueue.Queue.Unlink | argobots/src/pool/fifo.c:294-313 | a unit at any position leaves the ring and the others keep their order; a unit of another ring leaves that one, and this queue counts one less than it has |
| FifoPool.Pool.Push | argobots/src/pool/fifo.c:163-215 | push appends, and the unit's pool field names this pool |
| FifoPool.Pool.Pop | argobots/src/pool/fifo.c:217-277 | pop takes the front and clears the unit's fields; an empty pool gives none |
| FifoPool.Pool.Remove | argobots/src/pool/fifo.c:279-350 | exactly the given unit leaves, from any position; a unit in no pool is refused, and any if the pool is empty; a unit of another pool is unlinked there, after which neither pool's count is right: both stay valid exactly when the unit is refused or is in this pool |
| FifoPool.Transfer | argobots/src/pool/fifo.c:163-277 | a unit moved from one pool to another leaves every third pool as it was |
| CondQueue.EachWaiterLeavesOnce | argobots/src/cond.c:139-329 | over every interleaving of wait, timedwait, signal, broadcast and timeout each waiter leaves once for each time it came, and there is a mutex exactly while somebody waits |
| CondQueue.LongestFirst | argobots/src/cond.c:296-310 | whoever is ahead of a waiter that is woken, and does not give up, is woken too, no later |
| CondQueue.OneEvent | argobots/src/include/abti_cond.h:92-118 | for one event, what enters and what leaves makes the difference for every waiter |
| CondQueue.FirstComeFirstServed | argobots/src/cond.c:230-329 | while nobody gives up, the waiters are woken in the order in which they came, none left out |
| CondQueue.OneMutexRefusesNobody | argobots/src/include/abti_cond.h:94-118 | while all callers name the same mutex, every one of them is enqueued |
| CondQueue.RefusedExactlyWhen | argobots/src/include/abti_cond.h:94-118 | a caller is refused exactly when somebody waits with another mutex, and leaves the queue as it is then |
| CondVar.Variable.Enqueue | argobots/src/include/abti_cond.h:92-118 | the caller of wait or timedwait is appended to the ring if and only if nobody waits or all wait with the same mutex; else nothing changes |
| CondVar.Variable.Signal | argobots/src/cond.c:283-329 | the first waiter, if any, leaves the ring and is woken once, nobody else is, and the mutex is forgotten with the last one |
| CondVar.Variable.Broadcast | argobots/src/include/abti_cond.h:155-197 | every queued waiter is woken once and the queue is empty afterwards |
| CondVar.Variable.WakeAll | argobots/src/include/abti_cond.h:166-189 | the walk over the ring, whose links it clears on the way, comes by every waiter once and stops |
| CondVar.Variable.RemoveUnit | argobots/src/cond.c:139-172 | a timed-out waiter leaves from wherever it is, and nothing changes if it has been signalled |
| RwLock.ReadersOrOneWriter | argobots/src/include/abti_rwlock.h:62-116 | write_flag is set exactly while one writer has the lock, reader_count is the number of readers, and they never coexist |
| RwLock.NoReleaseStrandsAWaiter | argobots/src/include/abti_rwlock.h:100-116 | a queued reader implies write_flag and any queued ULT a holder, unless a broadcast is about to wake them all |
| RwLock.NoDeadlock | argobots/src/include/abti_rwlock.h:62-116 | while nobody keeps the lock, a ULT inside one of the operations implies an enabled step of some ULT inside |
| RwLock.StepKeeps | argobots/src/include/abti_rwlock.h:62-116 | every step keeps the invariant |
| RwLockAlone.Locks | argobots/src/include/abti_rwlock.h:62-96 | undisturbed, rdlock gets the lock unless a writer has it, wrlock unless anybody has it; else the caller sleeps in the queue |
| RwLockAlone.TriesAgain | argobots/src/include/abti_rwlock.h:69-88 | a ULT that was woken tries again in the same way |
| RwLockAlone.Unlocks | argobots/src/include/abti_rwlock.h:98-116 | unlock gives back the write lock or one read lock, and wakes every ULT that sleeps in the queue |
| KeyTable.Table.Get | argobots/src/key.c:290-305 | the loop finds the value last set for the key, and NULL for a key never set |
| KeyTable.Table.Set | argobots/src/key.c:262-288 | the table then stands for the updated map, and the key gains a reference exactly when it is new to the table |
| KeyTable.Table.Insert | argobots/src/key.c:279-287 | the new element goes to the front of the chain of its bucket |
| KeyTable.Table.Free | argobots/src/key.c:227-255 | every key of the table loses one reference, and its memory with the last if it is freed; each value that is not NULL goes to its destructor once, and nothing else does |
| KeyTable.Table.ChainKeys | argobots/src/key.c:257-260 | the chain of a bucket has exactly the table's keys with that remainder, each once |
| KeyLife.TheCountIsRight | argobots/src/key.c:76-288 | the reference count is one for the user until he drops the key, and one for each table that holds it |
| KeyLife.ReleasedOnceByTheLast | argobots/src/key.c:76-100 | the memory is released once, by whoever takes the count to zero, when neither the user nor a table has the key; a table that does so finds it freed |
| KeyLife.ReleaseComes | argobots/src/key.c:76-100 | in every run, until the memory has been released somebody can take a step towards it, and every step but a use of the key in another table is one |
| Barrier.ArrivalsFallIntoRounds | argobots/src/barrier.c:146-224 | nobody is woken before num_waiters have arrived in his round, the last arriver wakes each of the others once, and an early return counts for the next round |
| Barrier.EveryPhaseStartsAfresh | argobots/src/barrier.c:61-91 | every reinitialization between rounds finds an empty barrier and leaves one |
| Barrier.RoundsAfterReinit | argobots/src/barrier.c:61-91 | after complete phases and a reinitialization for n, of the arrivals ws the last |ws| mod n wait, and the next wakes exactly these when it makes the number of arrivals a multiple of n |
| Barrier.Object.Wait | argobots/src/barrier.c:146-215 | a caller that is not the last of its round waits behind the others, the last one wakes each of the others once and empties the barrier; a caller that is not a ULT and would have to wait is refused, and leaves the barrier locked with an arrival counted |
| Barrier.Object.WakeAll | argobots/src/barrier.c:197-210 | the loop wakes each of the other num_waiters - 1 once and clears its slot |
| Barrier.Object.Resize | argobots/src/barrier.c:61-91 | the barrier is empty and has the new number of waiters; both arrays keep at least that many slots, and are replaced only when the number grows |
| SchedConfig.RoundTrip | argobots/src/sched/config.c:59-300 | packing the parameters before the end mark and reading back, through the bytes: variable v then has the last value given for the index -2 - v (type 0) or v (other types), or is as before, up to the first index without a variable; success if and only if there is none |
| SchedConfig.Create | argobots/src/sched/config.c:59-143 | the buffer is the count and the entries in order; no parameters give NULL; an unknown type gives an error |
| SchedConfig.Read | argobots/src/sched/config.c:249-300 | the loop over the buffer copies the parameters in turn as reading by index demands, its offset always at an entry boundary |
| SchedConfig.EntryAt | argobots/src/sched/config.c:269-280 | at the n-th boundary the index, the size and the value of the n-th parameter are read back, and the next boundary follows them |
| SchedConfig.ReadsByIndex | argobots/src/sched/config.c:249-300 | for type 0 variable v belongs to the index -2 - v, and to the index v otherwise: each variable has the last value read for its index or is as before; all parameters are read, or those before the first whose index has no variable |
| SchedConfig.ByteAt | argobots/src/sched/config.c:91-97 | a number is stored with its lowest byte first |
| SchedConfig.IntRoundTrip | argobots/src/sched/config.c:91-97 | an int survives its four bytes |

## Left out

- Weak memory and the 32-bit width of counters: a sequentially consistent memory and unbounded integers stand for them.
- Recursive mutexes, the build with the simple mutex, and ABT_mutex_unlock_de.
- The switch of lock_low and the pop before it, which are one step of the mutex model; lock_low is not part of the ULT model, because it queues the ULT before its context is saved.
- MutexInvariant.SwitchLowKeeps: the step waits until the head of the low-priority queue has been switched out, which htable_switch_low does not test; that it always has been is proved in MutexStreams for ESs that run one ULT at a time.
- External threads and tasklets as callers of the mutex, which spin with trylock; they are covered as ULTs that call trylock.
- Cancellation, ABT_thread_yield_to, the path of join that removes the target from a pool, and the argument list of migration requests (a request and its argument are one step).
- num_migrations, and the counters' use in sched.c.
- Allocation of task blocks across pages: the scan of the page ring, add_page and free_page. The model follows one page through its owners.
- The compare-and-swap loop on the list of stack pages, stacks of other than the default size, and stacks given by the user.
- The capacity of the configuration buffer: its growth test does not count the size field, so the buffer is a sequence that grows. ABTI_sched_config_read_global is a use of the reading that is modelled.
- FifoPool.Pool.Remove: a unit whose pool field names a pool that it is not in does not occur.
- CondVar.Variable.RemoveUnit: the test of p_next before the lock is taken is part of the locked section.
- Barrier.Object.Wait: the switch of a ULT that has to wait, and the polling of an external thread, which follow the release of the lock.
- StencilTheorems.EveryInterleavingIsJacobi: rounding of doubles is not modelled, and spurious wake-ups do not occur.
- ABTI_ktable_delete, which has no caller and leaves the reference count as it is.
- Eventuals, futures, timers, event handling, affinity, logging and the example programs other than the two above.
