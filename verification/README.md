# rtsched: a verified model of the scheduler core

rtsched is a single-core scheduler: an intrusive red-black tree, queues built on it (kernel timers, CFS run queue,
blocked threads, waiters of synchronisation objects), and a state machine that moves threads between those queues at
ticks, reschedules, sleeps, blocks and wake-ups. This project models that core and proves what it keeps over every run.
`dafny verify dfyconfig.toml` checks all of it.

The model has three layers.

1. **The tree.** `Topology` (shape and pointer surgery), `Coloring` (colours and black heights) and the class
   `RbTrees.RbTree`, which carries out rotations, fix-ups and the successor splice in place. Link fields are indexed by
   entity address; the abstract value of a tree is its ascending sequence of entities. `TreeHeight` bounds the height.
2. **The queues.** `TimerQueues.KTimerQueue` (two trees with cached minima), `RunQueues.RunQueue` (with the rebuild
   loop), `WaitQueues` (timeout tree and doubly linked FIFO), `MessageQueues.MessageQueue` (the ring). `TreeMeaning` and
   `MessageMeaning` show, operation by operation, that they compute what the next layer says about sets and sequences:
   arming, parking and detaching a timer and the earliest timers; spawning, waking, requeueing, choosing and leaving the
   run queue; registering, unlinking and waking blocked threads; registering and popping waiters; sending and receiving.
3. **The step system.** `Kernel` gives every operation as a function on the whole scheduler state, in which a tree is a
   set ordered by `KeyOrder.Less` on (key, address). `Location`, `Scheduling`, `ExpiryDispatch` and `Runs` prove the
   invariant of every step and run, `DispatchEffects`, `JoinEffects`, `Rearming`, `Accounting`, `TimerGuards` and
   `Timing` the exact outcome of ticks, timer refreshes, yields and sleeps, `Charges` what CFS threads pay, `Fairness`
   and `Limits` the CFS bound and where it ends, `Starvation` who gets the CPU, `Reload` the timer programming,
   `Punctual` how late a sleeper wakes under it, and `Semaphores`, `Mutexes`, `Inheritance` and `MessageProtocol` the
   synchronisation objects with what every call answers. The classes `Schedulers.Scheduler` and
   `SyncObjects` do the same statement by statement, and their methods are proved equal to those functions.

Assumptions, each visible in a precondition: every critical section is one atomic step; `elapsed` is arbitrary; the
idle thread is registered; relative deadlines and the CFS period are at least 1; the clock stays below `u64::MAX`; all
CFS priorities together fit in `u32`. A deadline miss is the outcome `Missed`, since the source panics there. A thread
that has just blocked is switched out before something wakes it: `Limits.WakeRequeueable` shows that this is exactly
what `schedule` needs, and `Limits.EarlyWakeBreaks` a state in which it goes wrong. The fairness bound needs `Contended`
whenever a CFS thread joins: `Limits.LoneWakeExact`, `LoneSpawnExact` and `LoneTickExact` give, beside a lone running
CFS thread, the exact condition for the spread to stay within a bound and the one for the running thread to be still the
least served, and `Limits.LoneWakeSpreads` a state in which the spread jumps. Timer programming is at most one tick late
except at the very end of the clock, where `Reload.AtMostOneTickLate` gives the exact condition and `Reload.EndIsLate` a
state. A sleeper that depends on it wakes at most one tick late unless a call of the running thread takes the clock to
the very tick at which it is due: `Punctual.WithinInterval` gives the condition and `Punctual.LateByTwo` a state.

The code differs from its documentation in two places, and the model follows the code. docs/runq.md says that less
favoured CFS threads do not starve; the charge in src/runq.rs rounds down, so a favoured thread may be charged nothing
for ever. `Starvation` proves that it then keeps everybody behind it off the CPU, bounds the wait of a runnable thread
while every charge is at least one, and says exactly who starves under equal slices. docs/sched.md says that the idle
thread is chosen only when nothing else is runnable; src/sched.rs chooses it also when the running CFS thread is the
only one (`Limits.IdleExactly`, `Limits.IdleDespiteWork`).

## Model

| member | source | states |
|---|---|---|
| `Topology.RotatedLeftShape` | src/rbtree.rs:342-364 | a left rotation keeps the parent links, the in-order sequence and every subtree's extent consistent |
| `Topology.RotatedRightShape` | src/rbtree.rs:366-388 | the same for a right rotation, as the mirror image |
| `Topology.SplicedShape` | src/rbtree.rs:443-457 | unlinking a node with at most one child leaves a well-formed tree of the other nodes in order |
| `Topology.ReplacedShape` | src/rbtree.rs:259-280 | putting the unlinked successor in a node's place leaves a well-formed tree in the same order |
| `Coloring.Recolored` | src/rbtree.rs:398-403 | with a red uncle, recolouring moves the only possible red-red edge two levels up and keeps all black heights |
| `Coloring.RotatedOuter` | src/rbtree.rs:409-413 | with a black uncle, the outer rotation ends the red-red edge and keeps all black heights |
| `Coloring.RedSibling` | src/rbtree.rs:465-470 | lowering a red sibling keeps the deficit at the same child and gives it a black sibling |
| `Coloring.BlackNephews` | src/rbtree.rs:472-479 | with two black nephews, reddening the sibling moves the deficit to the parent |
| `Coloring.NearNephewRed` | src/rbtree.rs:481-491 | raising a red near nephew makes the far nephew red and keeps the deficit |
| `Coloring.FarNephewRed` | src/rbtree.rs:493-503 | raising the sibling over a red far nephew repays the deficit: the tree is red-black again |
| `RbTrees.RbTree.First` | src/rbtree.rs:118-120 | the least entity, null exactly for an empty tree |
| `RbTrees.RbTree.Next` | src/rbtree.rs:127-147 | the in-order successor of every linked entity, null after the last |
| `RbTrees.RbTree.UpperBound` | src/rbtree.rs:156-172 | the first entity ordered after a key and address, whether or not that entity is linked, in no more turns than the height of the tree |
| `RbTrees.RbTree.Contains` | src/rbtree.rs:174-185 | true exactly for linked entities |
| `RbTrees.RbTree.LeftRotate` | src/rbtree.rs:342-364 | the pointer writes are the left rotation of the whole tree value |
| `RbTrees.RbTree.RightRotate` | src/rbtree.rs:366-388 | the pointer writes are the right rotation of the whole tree value |
| `RbTrees.RbTree.InsertFixup` | src/rbtree.rs:390-441 | from a tree whose only flaw is a red-red edge at the new node, the climb terminates in a red-black tree over the same nodes |
| `RbTrees.RbTree.Insert` | src/rbtree.rs:195-230 | a valid tree holding exactly the old entities in their order plus the new one at its place |
| `RbTrees.RbTree.Transplant` | src/rbtree.rs:443-457 | replaces a subtree under its parent or at the root, with a possibly null replacement |
| `RbTrees.RbTree.RemoveFixup` | src/rbtree.rs:459-555 | from a tree short by one black below a possibly null child, the loop terminates in a red-black tree over the same nodes |
| `RbTrees.RbTree.Remove` | src/rbtree.rs:239-290 | a valid tree holding exactly the other entities in their order, the removed one's links cleared |
| `RbTrees.RbTree.PopFirst` | src/rbtree.rs:299-309 | removes and returns the least entity, the rest unchanged |
| `TreeHeight.LogarithmicHeight` | src/rbtree.rs:319-326 | the height and every node's depth are at most 2 log2(len + 1) |
| `RbTrees.RbTree.Minimum` | src/rbtree.rs:319-326 | the leftmost node of a subtree, in no more turns than the height of that subtree |
| `RbTrees.RbTree.Descend` | src/rbtree.rs:195-221 | the free slot between the neighbours in order, in no more turns than the height of the tree |
| `TimerQueues.KTimerQueue.First` | src/ktimer.rs:906-911 | the earlier of the two cached minima is the least queued timer |
| `TimerQueues.KTimerQueue.Next` | src/ktimer.rs:933-946 | the least queued timer after a given one, over both trees |
| `TimerQueues.KTimerQueue.Contains` | src/ktimer.rs:948-950 | true exactly for queued timers |
| `TimerQueues.KTimerQueue.Insert` | src/ktimer.rs:1062-1084 | the timer joins the tree its flag names, both caches stay exact |
| `TimerQueues.KTimerQueue.Remove` | src/ktimer.rs:1095-1123 | the timer leaves its tree, the flag is kept, both caches stay exact |
| `TimerQueues.KTimerQueue.Dequeue` | src/ktimer.rs:1131-1139 | like remove, with the flag cleared; null is returned unchanged |
| `TimerQueues.KTimerQueue.Walk` | src/ktimer.rs:645-659 | first, then next until null, visits every queued timer once in strictly ascending order |
| `RunQueues.RunQueue.AlignedVruntime` | src/runq.rs:172-188 | the leftmost vruntime, or the thread's own when the tree is empty |
| `RunQueues.RunQueue.EnqueueThread` | src/runq.rs:202-217 | the new thread joins level with the leftmost, the others keep order and keys, the sum grows by its priority |
| `RunQueues.RunQueue.Rebuild` | src/runq.rs:245-258 | the rebuild loop yields the same entities in the same order with the same vruntimes |
| `RunQueues.RunQueue.EnqueueFromWaitq` | src/runq.rs:228-263 | the woken thread joins level with the leftmost, the others keep order and keys, the sum grows, saturating |
| `RunQueues.RunQueue.Dequeue` | src/runq.rs:265-283 | only a ready thread is unlinked; the sum shrinks, saturating |
| `WaitQueues.SuspendedWaitList.PushBack` | src/waitq.rs:84-97 | a well-formed doubly linked list with the entity at its end |
| `WaitQueues.SuspendedWaitList.Remove` | src/waitq.rs:99-117 | a well-formed list of the others in order, whether head, middle or tail was removed, the entity's links cleared |
| `WaitQueues.WaitQueue.Insert` | src/waitq.rs:231-248 | endless waits go to the end of the list as Suspended, finite ones to the tree as Waiting |
| `WaitQueues.WaitQueue.Remove` | src/waitq.rs:250-259 | the thread leaves the index its state names |
| `WaitQueues.WaitQueue.PopExpired` | src/waitq.rs:215-229 | the earliest sleeper if it is due; none exactly when no sleeper is due |
| `WaitQueues.WaitQueue.NextWaitEntity` | src/waitq.rs:39-54 | the successor of the cursor in the order: finite waits by time, then suspended ones by registration |
| `WaitQueues.WaitQueue.Walk` | src/diagnostics/waitq.rs:37-48 | the cursor visits every blocked thread exactly once in that order and stops |
| `MessageQueues.CellIs` | src/message.rs:149-154 | the division-free tail index is (head + len) mod N |
| `MessageQueues.StoreAppends` | src/message.rs:155-156 | writing the tail cell appends to the buffered messages and touches none of them |
| `MessageQueues.AdvanceDrops` | src/message.rs:179-185 | the head cell is initialised and holds the oldest message, and advancing the head drops just that one |
| `MessageQueues.MessageQueue.TrySend` | src/message.rs:139-165 | full exactly at capacity with nothing changed; otherwise the message is appended and the first receiver popped; sent = received + buffered |
| `MessageQueues.MessageQueue.TryReceive` | src/message.rs:170-192 | empty exactly without messages with nothing changed; otherwise the oldest message from an initialised slot, and the first sender popped; sent = received + buffered |
| `MessageQueues.MessageQueue.Register` | src/message.rs:258-278 | the caller joins the sender or receiver tree under its deadline, the messages unchanged |
| `TreeMeaning.HeadIsLeast` | src/rbtree.rs:118-120 | the head of a tree is the least element of the set it stands for |
| `TreeMeaning.ActiveHead` | src/ktimer.rs:913-915 | the cached active minimum is the earliest active timer of the abstract state |
| `TreeMeaning.EarliestTimer` | src/ktimer.rs:906-911 | the queue's first timer is the earliest queued timer of the abstract state |
| `TreeMeaning.EarliestSchedulerTimer` | src/ktimer.rs:645-659 | the walk past the wait timer ends at the least other queued timer of the abstract state, null exactly when there is none |
| `TreeMeaning.TakeOff` | src/ktimer.rs:1095-1123 | unlinking a timer from its tree is detaching it in the abstract state, flag kept |
| `TreeMeaning.PutBack` | src/ktimer.rs:1062-1084 | inserting a detached timer is queueing it in the abstract state under its new deadline and flag |
| `TreeMeaning.Detach` | src/ktimer.rs:1131-1139 | dequeueing a timer is detaching it in the abstract state, flag cleared |
| `TreeMeaning.Rearm` | src/ktimer.rs:673-685 | removing, re-keying and inserting a timer in the trees is arming it in the abstract state |
| `TreeMeaning.EnqueueWoken` | src/runq.rs:228-263 | the tree operation, rebuild loop included, is the abstract wake-up into the run queue |
| `TreeMeaning.PopLeftmost` | src/sched.rs:207-210 | the popped entity is the least (vruntime, address) ready thread |
| `TreeMeaning.EnqueueNew` | src/runq.rs:202-217 | the tree operation for a new thread is the abstract spawn |
| `TreeMeaning.Requeue` | src/sched.rs:136-156 | inserting a preempted thread under its own vruntime adds it to the abstract run queue |
| `TreeMeaning.Leave` | src/runq.rs:265-283 | unlinking a queued thread that blocks, or none, and reducing the sum is the abstract departure |
| `TreeMeaning.InsertBlocked` | src/waitq.rs:231-248 | tree or list insertion is the abstract registration, with the state it calls for |
| `TreeMeaning.RemoveBlocked` | src/waitq.rs:250-259 | tree or list removal is the abstract one |
| `TreeMeaning.PopDue` | src/waitq.rs:215-229 | the popped sleeper is the least one, and none is popped exactly when the least wake time lies ahead |
| `TreeMeaning.PopWaiter` | src/sync.rs:782-795 | the popped waiter is the least (deadline, address) one |
| `TreeMeaning.RegisterWaiter` | src/sync.rs:769-780 | inserting the caller into the waiter tree adds it to the waiters under its deadline |
| `MessageMeaning.TrySend` | src/message.rs:139-165 | the ring operation is the protocol's send: same answer, same messages, and the waiter to wake is the one the protocol wakes |
| `MessageMeaning.TryReceive` | src/message.rs:170-192 | the ring operation is the protocol's receive: the oldest message, and the sender to wake is the one the protocol wakes |
| `MessageMeaning.Register` | src/message.rs:258-278 | joining the waiter tree is what the protocol does to its queue when the caller parks |
| `Location.RefreshInv` | src/ktimer.rs:487-512 | re-arming an expired active timer keeps the invariant and restores the cached next timer |
| `Rearming.RefreshQuiet` | src/ktimer.rs:487-512 | with no active timer expired only the cache changes, to the first active timer by (expiry, address), or none |
| `Rearming.RefreshFires` | src/ktimer.rs:487-512 | if the first active timer has expired: a miss exactly if it is an RT timer whose job used more than its relative deadline, naming that thread; otherwise it is active again at now plus relative deadline (RT, runtime zero) or period (CFS), saturated, and every other timer and thread is unchanged |
| `Rearming.RekeyTimer` | src/ktimer.rs:661-690 | a re-keyed timer expires at the new deadline, exactly unless it is then the first active one and expired: then it starts over |
| `Rearming.RekeyMisses` | src/ktimer.rs:661-690 | re-keying is a miss exactly if the timer is queued and the first active timer is then an expired one with an overrun job |
| `Rearming.SpawnRtTimer` | src/ktimer.rs:357-368 | a new RT timer is active and first expires at its relative deadline on the absolute clock, or that much from now if this has passed and no active timer comes first |
| `Rearming.RtWakeRefreshes` | src/ktimer.rs:534-555 | waking an RT thread makes its timer active under the deadline it has and refreshes twice: an active timer starts over with a fresh job exactly if it has expired and at most one active timer comes before it, the others stay, and it is a miss exactly if such a timer belongs to an overrun job |
| `Rearming.CfsWakeRefreshes` | src/runq.rs:228-263 | waking a CFS thread refreshes once: only an expired first active timer starts over, or is the miss |
| `Rearming.RtWaitRefreshes` | src/ktimer.rs:514-532 | when an RT caller sleeps or blocks, its own timer no longer counts and the others are refreshed twice if that timer was the first active one, otherwise once, with the same exact outcome |
| `Rearming.CfsWaitRefreshes` | src/runq.rs:265-283 | when a CFS caller does, the slice no longer counts and the others are refreshed once |
| `Location.ProgramWaitInv` | src/ktimer.rs:400-420 | the wait timer is armed at the least finite wake time and the next timer is the earliest active one |
| `Location.YieldInv` | src/thread.rs:1007-1023 | yielding keeps the invariant and the caller running |
| `Location.ParkInv` | src/runq.rs:265-283 | the current thread blocks, leaves its queue or timer tree, and nobody else moves |
| `Location.WaitUntilInv` | src/thread.rs:1025-1054 | sleeping or blocking keeps the invariant, blocks only the caller and makes only legal state changes |
| `Location.WakeInv` | src/sync.rs:797-810 | waking keeps the invariant, makes that thread ready in its queue and moves nobody else |
| `Location.SpawnCfsInv` | src/runq.rs:202-217 | a new CFS thread keeps the invariant, priority sum included |
| `Location.SpawnRtInv` | src/ktimer.rs:357-368 | a new RT thread with its queued timer keeps the invariant |
| `Location.SetExpireInv` | src/ktimer.rs:661-690 | re-keying a thread's timer keeps the invariant and moves no thread |
| `Scheduling.PickRunnable` | src/sched.rs:206-266 | the thread chosen to run exists and is never blocked |
| `Scheduling.ScheduleInv` | src/sched.rs:166-270 | after schedule the chosen thread is the only running one, the invariant holds and no blocked thread went straight to running |
| `Scheduling.ScheduleExact` | src/sched.rs:136-266 | apart from the charge, schedule changes nothing but the states of the outgoing and the chosen thread and the run tree, which takes the one unless it is blocked and loses the other |
| `ExpiryDispatch.WakeDueCore` | src/ktimer.rs:422-452 | every due sleeper and nobody else becomes ready, with the invariant's core kept |
| `ExpiryDispatch.DispatchOneKeeps` | src/ktimer.rs:1003-1031 | each iteration keeps the loop's invariant and decreases a measure that allows the CFS timer two turns and the wait timer fresh RT timers |
| `ExpiryDispatch.DispatchResult` | src/ktimer.rs:988-1034 | the loop ends with no queued timer expired and exactly the due sleepers woken, unless a deadline was missed |
| `DispatchEffects.CfsTurnStays` | src/ktimer.rs:1008-1018 | one or two turns of the CFS timer end alike: a slice is followed by a pause, which is skipped when the interval already covers it |
| `DispatchEffects.DispatchFate` | src/ktimer.rs:988-1034 | the closed form of a dispatch: every RT timer, RT runtime and the CFS timer afterwards, whatever the order of expiries |
| `DispatchEffects.MissExactly` | src/ktimer.rs:1018-1027 | the dispatch halts exactly when an expired active job, or a due sleeper with the interval added, has overrun its relative deadline, and it names such a thread |
| `Runs.TickInv` | src/sched.rs:285-319 | a tick keeps the invariant, wakes exactly the due sleepers, leaves no expired timer and caches the earliest active one |
| `Runs.StepInv` | src/sched.rs:166-270 | every step keeps the location invariant and makes only legal state changes |
| `Runs.KeepsSuspended` | src/waitq.rs:250-259 | only a wake-up of that thread ends an indefinite suspension |
| `Runs.WakeOrder` | src/waitq.rs:99-117 | a wake-up leaves the other suspended threads in their order |
| `Runs.KeepsAwake` | src/thread.rs:189-196 | a thread stops being awake only by its own sleep or block |
| `Runs.RunInv` | src/sched.rs:166-270 | in every reachable state threads are in exactly the queue their state names, the caches are exact and the priority sum is the sum over runnable CFS threads |
| `Timing.RtYieldStepsAside` | src/ktimer.rs:739-781 | a yielding RT thread gets an inactive timer for the rest of its period less the runtime charged so far, a fresh runtime, and is not chosen next |
| `Timing.CfsYieldEndsSlice` | src/thread.rs:1007-1023 | a yielding CFS thread leaves the slice timer inactive for the rest of its period, and no CFS thread is chosen next |
| `Timing.YieldThenRests` | src/thread.rs:1007-1023 | the switch that the yield requests takes the CPU from the RT caller and leaves it resting: ready, with an inactive timer |
| `Timing.RestingStep` | src/ktimer.rs:1018-1031 | a resting thread stays so under every step but a tick at or after the expiry of its timer |
| `Timing.RunResting` | src/sched.rs:247-266 | over any run a resting thread is neither current nor chosen until a tick reaches its timer |
| `Timing.CfsYieldThenPauses` | src/thread.rs:1007-1023 | the switch after a CFS yield leaves no CFS thread on the CPU and the slice timer inactive |
| `Timing.RunPaused` | src/sched.rs:204-246 | over any run no CFS thread is current or chosen until a tick reaches the slice timer |
| `Timing.SleepUntil` | src/thread.rs:1025-1054 | the sleeper waits in the timeout tree until exactly now plus elapsed plus the ticks asked for |
| `Accounting.SleepAccounts` | src/ktimer.rs:739-781 | a sleeping RT caller is charged the elapsed ticks, saturating, and its timer is detached with the rest of its period from the new now; a CFS caller pauses the slice for the rest of the period; nothing else of caller or timer changes |
| `Accounting.BlockAccounts` | src/sync.rs:712-752 | the same for a block, which suspends without a wake time |
| `Accounting.RunHolds` | src/ktimer.rs:422-452 | over any run until its time a sleeping RT thread keeps its runtime, its timer and its relative deadline |
| `Accounting.SleeperLate` | src/ktimer.rs:422-452 | sleep, any run, and the tick that wakes: the tick finds the sleeper late exactly if its runtime before, the ticks elapsed before it slept and the interval of that tick together exceed its relative deadline, and then it is a miss |
| `Accounting.WakingTickResumes` | src/ktimer.rs:436-449 | if that tick ends normally the thread is ready with those ticks charged and an active timer for what is left of its deadline, or with a fresh job if nothing is left |
| `Accounting.TickReleases` | src/ktimer.rs:1018-1031 | a tick that wakes no sleeper of an RT timer starts that timer and its job over exactly if it has expired, active or not, and otherwise leaves both as they were |
| `Accounting.TickSlices` | src/ktimer.rs:1008-1018 | a tick turns an expired slice into a pause for what the interval leaves of the period, and an expired pause, or a slice whose period the interval used up, into the next slice |
| `Accounting.TickMisses` | src/ktimer.rs:988-1034 | a tick is a miss exactly if an expired active timer belongs to a job above its relative deadline, or a sleeper that it wakes is above it with the interval charged |
| `Timing.SleepStep` | src/ktimer.rs:422-452 | a sleeper is woken by a tick at or after its wake time and by no other step |
| `Timing.RunAsleep` | src/waitq.rs:215-229 | over any run a sleeper stays asleep until a tick reaches its wake time |
| `Fairness.ChargeBounded` | src/runq.rs:98-106 | a running thread's priority is within the sum, so no charge exceeds the elapsed ticks |
| `Charges.ScheduleGain` | src/sched.rs:187-200 | schedule raises the vruntime of a running CFS thread by g with g * sum <= elapsed * priority < (g + 1) * sum, and nobody else's, nor that of a current thread that has just blocked |
| `Charges.FavouredPaysLess` | src/runq.rs:93-106 | of two running threads with equal elapsed time and sum the one with the lower priority number is charged no more |
| `Charges.RunShares` | src/runq.rs:98-106 | over any run under a constant sum, n charges of one thread for a total time E gain G with G * sum <= E * priority <= G * sum + n * (sum - 1) |
| `Fairness.PickLeast` | src/sched.rs:211-246 | a CFS thread that is chosen has the least vruntime of all runnable ones |
| `Fairness.FairJoin` | src/runq.rs:172-188 | a thread that joins level with the leftmost leaves the spread within the bound |
| `Fairness.ScheduleFair` | src/sched.rs:187-246 | charging at most the bound and choosing again keeps the spread within it |
| `JoinEffects.TickVruntime` | src/ktimer.rs:422-452 | after a tick every CFS thread it woke has one and the same vruntime, the leftmost or else that of the first to wake; all others keep theirs |
| `JoinEffects.TickRunnable` | src/ktimer.rs:422-452 | the CFS threads that compete after a tick are those that did and the CFS sleepers that were due |
| `JoinEffects.WakeLevel` | src/runq.rs:228-263 | a woken CFS thread joins at the least vruntime of the run tree, or its own when that is empty, and is otherwise as it was |
| `JoinEffects.SpawnLevel` | src/runq.rs:202-217 | so does a new one, which would start at zero, ready and with its priority added to the sum, all other threads and timers unchanged |
| `Runs.RunFair` | src/sched.rs:187-246 | over any run that starts with a least-served CFS thread on the CPU (or none), vruntimes of runnable CFS threads differ by at most a bound covering the initial spread and the longest charge |
| `Starvation.ZeroCharge` | src/runq.rs:98-106 | a charge rounds down to nothing exactly when elapsed times priority is below the priority sum, or that sum is zero |
| `Starvation.RunStarved` | src/sched.rs:187-246 | over any run, with ticks, wakes and spawns, in which some thread goes on competing and is only charged nothing, whoever is queued behind it is never current and never chosen |
| `Starvation.FavouredForever` | src/sched.rs:187-246 | a settled state with priorities 1 and 1000 and equal vruntimes that slices of up to 1000 ticks, however many, never change |
| `Starvation.RunServed` | src/sched.rs:187-246 | over any run, ticks, pauses and RT threads included, in which every charge of a CFS thread is at least one and no CFS thread joins, a runnable thread is current before the active slice has governed as many reschedules as the others have room before its vruntime, plus one if no least served one runs at the start |
| `Starvation.NoStarvation` | src/sched.rs:187-246 | the same with joining threads, in terms of the state: from a fair start, one plus (spread + 1) for each other competitor and for each thread that joins on the way |
| `Starvation.StarvesExactly` | src/sched.rs:187-246 | under reschedules after equal slices with the slice active, a queued thread is never current exactly if some thread that is charged nothing is ahead of it in the order, or is current and least served; otherwise it is current within the same number of reschedules |
| `Limits.RtPickEarliest` | src/sched.rs:247-266 | an RT thread is chosen exactly when its timer is the least active one by (expiry, address), and then it is not blocked |
| `Limits.LoneWakeExact` | src/runq.rs:172-188 | waking beside a lone running CFS thread: the spread stays within a bound exactly if the two vruntimes are that close, and the running thread is still least served exactly if its own is no larger |
| `Limits.LoneSpawnExact` | src/runq.rs:202-217 | spawning beside a lone running CFS thread: the spread stays within a bound exactly if its vruntime does, and it is still least served exactly at vruntime zero |
| `Limits.LoneTickExact` | src/ktimer.rs:422-452 | any number of CFS sleepers woken by a tick beside a lone running CFS thread: the first keeps its vruntime and the others join it, so that both exact conditions are those for the first |
| `Limits.LoneWakeSpreads` | src/runq.rs:172-188 | a state that meets the invariant in which such a wake raises the spread from 0 to exactly 100 without any charge, and the running thread is no longer least served |
| `Limits.IdleExactly` | src/sched.rs:202-246 | the idle thread is chosen exactly with no active timer, or with the CFS slice active and the run tree empty, whoever is running |
| `Limits.IdleDespiteWork` | src/sched.rs:244-246 | a settled state in which the running CFS thread is runnable and the idle thread is chosen |
| `Limits.WakeRequeueable` | src/sched.rs:136-156 | a wake leaves schedule's re-insertion safe exactly when it does not wake the current CFS thread before the switch |
| `Limits.EarlyWakeBreaks` | src/sched.rs:136-156 | a state that meets the invariant in which waking the CFS thread that has just blocked makes the re-insertion unsafe |
| `Reload.Interval` | src/ktimer.rs:783-821 | the programmed interval is the distance to the deadline rounded into what the timer can hold |
| `Reload.SliceIsDeadline` | src/ktimer.rs:805-809 | the CFS formula is the deadline formula with the relative deadline as a second limit, one tick short of the longest interval because the remaining ticks are capped first; for a timer at NEVER this needs one chunk of clock to be left |
| `Reload.AtMostOneTickLate` | src/ktimer.rs:796-821 | starting with no expired timer, no queued timer is more than one tick late after the programmed interval, exactly unless the earliest timer is the CFS timer at NEVER and the cap that stands for its remaining ticks reaches past the end of the clock |
| `Reload.LateOnlyIfNext` | src/ktimer.rs:796-821 | with one chunk of clock left nothing is late by more than a tick, and by one tick only a timer due on the next tick |
| `Reload.EndIsLate` | src/ktimer.rs:147-155 | a state that meets the invariant, six ticks before the end of the clock with the CFS timer at NEVER, in which the programmed interval is too long |
| `Reload.LoneDeadline` | src/ktimer.rs:810-817 | any distance is reached in ceil(distance / 2^24) interrupts, one tick late exactly when the remainder is one |
| `Reload.LoneRun` | src/sched.rs:285-319 | those interrupts are ticks of the scheduler that change only the clock until the last one |
| `Punctual.StepClock` | src/ktimer.rs:739-781 | a step moves the clock by the elapsed ticks of a tick, or of a yield, sleep or block of a thread other than idle, and not otherwise |
| `Punctual.TickOnTime` | src/ktimer.rs:783-821 | while somebody sleeps a timer is programmed, and its tick comes at most one tick after any wake time ahead |
| `Punctual.WithinInterval` | src/ktimer.rs:783-821 | whatever else takes time within the programmed interval ends before a wake time ahead, exactly unless that is the very next tick and it takes one tick |
| `Punctual.TimedStep` | src/ktimer.rs:422-452 | such a step leaves the sleeper asleep with its time ahead, or is the tick that wakes it on time or one tick late |
| `Punctual.RunOnTime` | src/thread.rs:1025-1054 | over any run whose ticks last as long as programmed, and whose other steps keep within the interval and off that tick, a sleeper is woken at its time or one tick later |
| `Punctual.LateByTwo` | src/ktimer.rs:810-817 | a settled state in which a yield on the very tick at which a sleeper is due makes it wake two ticks late |
| `Semaphores.SemStepInv` | src/sync.rs:369-421 | every step keeps the token balance, the count within its maximum, and waiters suspended with no token stored |
| `Semaphores.TakeAtOnce` | src/sync.rs:369-399 | a stored token is taken at once by either call; without one try-take and the idle thread change nothing |
| `Semaphores.TakeQueues` | src/sync.rs:380-399 | otherwise the caller is last in the suspended list and waits under the expiry its timer had |
| `Semaphores.GiveAnswers` | src/sync.rs:405-421 | a give wakes the least (deadline, address) waiter with the token, or stores it if it fits, or changes nothing |
| `Semaphores.SemRun` | src/sync.rs:236-289 | over any interleaving initial plus given equals stored plus granted, and waiters imply count zero |
| `Mutexes.MutualExclusion` | src/sync.rs:525-544 | at most one unblocked thread holds a guard |
| `Mutexes.RunningGuardOwns` | src/sync.rs:546-560 | whoever runs and holds a guard is the owner, so the check in unlock never fails |
| `Mutexes.UnlockHandsOver` | src/sync.rs:546-573 | unlock passes ownership to the least (deadline, address) waiter, which becomes ready, or frees the mutex; the other waiters and their deadlines stay and the record of a boost is cleared |
| `Mutexes.MutexStepSound` | src/sync.rs:510-573 | every step keeps: a free mutex has no waiters, the owner is no waiter, waiters stay suspended |
| `Mutexes.LockAtOnce` | src/sync.rs:510-544 | a free mutex is taken at once by either call; a try-lock of a taken one, and a lock by its owner or by the idle thread, change nothing |
| `Mutexes.LockQueues` | src/sync.rs:525-544 | otherwise the caller is last in the suspended list and waits under the expiry its timer had, beside the other waiters and behind the same owner |
| `Mutexes.MutexRun` | src/sync.rs:510-573 | in every reachable state: at most one unblocked thread holds a guard and it is the owner, waiters are suspended, a free mutex has none |
| `Inheritance.SetExpireExact` | src/ktimer.rs:661-690 | the timer takes the new deadline with its flags kept, exactly unless it is then the earliest active timer and already expired: then it expires its relative deadline (RT) or period (CFS) from now |
| `Inheritance.BoostLowers` | src/sync.rs:654-685 | an effective boost strictly lowers the owner's deadline in the same tree, an ineffective one changes nothing, and the original stays saved |
| `Inheritance.LockLends` | src/sync.rs:654-685 | after a contended lock under its guard, unless owner and waiter are both CFS, the owner's timer expires at the least of its old expiry, the waiter's deadline and the expiry of every queued timer but the wait timer; the mutex is boosted from the first time this fell on and saves the old expiry then |
| `Inheritance.CfsLendsNothing` | src/sync.rs:665-669 | between two CFS threads nothing is lent |
| `Inheritance.IdleLendsNothing` | src/sync.rs:674-685 | an idle owner has no deadline to lower, but the mutex counts as boosted once there is a finite one |
| `Inheritance.QuietUndisturbed` | src/sync.rs:654-685 | if no scheduler timer has expired when the caller blocks, the lent deadline lies ahead and the owner's timer is left alone until the boost |
| `TimerGuards.StepLeaves` | src/ktimer.rs:487-512 | every step leaves a scheduler timer exactly as it is under a guard that can be read off the state before the step |
| `TimerGuards.StepKind` | src/thread.rs:307-313 | no step changes what kind of thread anybody is |
| `Inheritance.RunLent` | src/sync.rs:654-685 | over any run whose steps meet a guard on the state before them (the owner's timer not expired, nobody else using it, and for an active one no scheduler timer expired when a caller blocks, and a CFS caller's elapsed time below the period), however many boosts it makes, the mutex remembers the deadline from before the first |
| `Inheritance.UnlockRestores` | src/sync.rs:687-700 | unlock gives the owner that deadline back, also past the next owner's wake-up |
| `Inheritance.InheritanceRestored` | src/sync.rs:654-700 | the whole episode from taking to unlocking ends on the deadline it started with, under the same guards and with that deadline still ahead if the timer is active |
| `MessageProtocol.QueueStepInv` | src/message.rs:139-288 | every send, receive, retry, registration and scheduler step keeps the no-lost-wake-up invariant and the message order |
| `MessageProtocol.QueueRun` | src/message.rs:210-288 | in every reachable state registered receivers imply no more buffered messages than woken receivers, the same for senders and free slots, and sent = received + buffered |
| `MessageProtocol.QuietMeansBlocked` | src/message.rs:210-256 | once all woken threads have retried, receivers sleep only on an empty queue and senders only on a full one |
| `MessageProtocol.SendEffect` | src/message.rs:194-233 | a send succeeds exactly when there is room; an error or a park has stored nothing |
| `MessageProtocol.SendOnceAnswers` | src/message.rs:210-233 | a blocking send is done exactly with room, parks exactly without room if the caller may block, and fails otherwise; parked, the caller is last in the suspended list and among the senders under the expiry its timer had, messages and other waiters unchanged |
| `MessageProtocol.SendWakes` | src/message.rs:139-165 | a send that succeeds wakes the least (deadline, address) receiver, if any, and nobody else |
| `MessageProtocol.ReceiveEffect` | src/message.rs:202-256 | a receive succeeds exactly when there is a message, the oldest; an error or a park has taken nothing |
| `MessageProtocol.ReceiveOnceAnswers` | src/message.rs:235-256 | the same for a blocking receive, messages and receivers |
| `MessageProtocol.ReceiveWakes` | src/message.rs:170-192 | a receive that succeeds wakes the least (deadline, address) sender, if any, and nobody else |
| `Schedulers.FreshSettled` | src/sched.rs:55-65 | the state after initialisation meets the invariant |
| `Schedulers.Scheduler.RefreshNextKtimer` | src/ktimer.rs:487-512 | the statements are the refresh of the abstract state, deadline miss included |
| `Schedulers.Scheduler.ProgramWaitKtimer` | src/ktimer.rs:400-420 | touching the wait timer only on a change is the abstract re-arming |
| `Schedulers.Scheduler.SwitchToIdleRequeued` | src/sched.rs:136-163 | requeueing an unblocked CFS thread and switching to idle is the abstract switch, and does nothing when idle already runs |
| `Schedulers.Scheduler.PopCfs` | src/sched.rs:207-243 | popping, comparing and re-inserting is the abstract choice between current and leftmost |
| `Schedulers.Scheduler.SwitchToRt` | src/sched.rs:247-266 | the outgoing thread is requeued unless blocked and the RT thread runs |
| `Schedulers.Scheduler.Schedule` | src/sched.rs:166-270 | the whole function is the abstract schedule step and leaves exactly one running thread |
| `Schedulers.Scheduler.YieldKtimer` | src/ktimer.rs:739-781 | the statements are the abstract yield of a timer: runtime charged, timer inactive until the rest of its period, clock advanced |
| `Schedulers.Scheduler.YieldCpu` | src/thread.rs:1007-1023 | the statements are the abstract yield step and leave the invariant intact with the caller running |
| `Schedulers.Scheduler.ParkCurrent` | src/runq.rs:265-283 | removing a ready thread from the run tree or the RT timer from its queue, giving up the priority share, entering the blocked index and re-arming the wait timer is the abstract park, deadline miss included |
| `Schedulers.Scheduler.SleepFor` | src/thread.rs:1025-1054 | the statements are the abstract sleep step; the idle thread returns with nothing changed |
| `Schedulers.Scheduler.BlockCurrent` | src/sync.rs:712-752 | the statements are the abstract block step, and the returned deadline is the one the timer had before it was parked |
| `Schedulers.Scheduler.EnqueueKtimerqFromWaitq` | src/ktimer.rs:534-555 | an RT waiter becomes ready with its timer active |
| `Schedulers.Scheduler.WakeWaiter` | src/sync.rs:797-810 | unlinking from the blocked index and queueing as CFS or RT thread is the abstract wake step |
| `Schedulers.Scheduler.SetSchedulerExpireAt` | src/ktimer.rs:661-690 | removing, re-keying and re-inserting in the same tree, with the next timer refreshed when the timer was queued or cached, is the abstract re-key step |
| `Schedulers.Scheduler.WakeWaitThread` | src/ktimer.rs:422-452 | the loop wakes the due sleepers in order while the wait timer is off the queue |
| `Schedulers.Scheduler.DispatchExpired` | src/ktimer.rs:988-1034 | the loop terminates, is the abstract dispatch, and returns the earliest active timer with none expired |
| `Schedulers.Scheduler.HandleSchedTick` | src/sched.rs:285-319 | advancing the clock, the dispatch loop and caching its result is the abstract tick step |
| `Schedulers.Scheduler.EnqueueThread` | src/runq.rs:202-217 | the statements are the abstract spawn of a CFS thread, level with the leftmost one |
| `Schedulers.Scheduler.Perform` | src/sched.rs:166-270 | every step of a run is carried out by these methods, with the invariant kept |
| `SyncObjects.Semaphore.TryTake` | src/sync.rs:369-377 | is the abstract try-take: succeeds exactly when a token is stored; conservation kept |
| `SyncObjects.Semaphore.Take` | src/sync.rs:380-399 | is the abstract take: a token when one is stored, an error for the idle thread, otherwise the caller suspended and registered under its deadline; conservation kept |
| `SyncObjects.Semaphore.Give` | src/sync.rs:405-421 | is the abstract give: succeeds exactly with a waiter, the most urgent one woken, or room for the token; conservation kept |
| `SyncObjects.Mutex.TryLock` | src/sync.rs:510-522 | is the abstract try-lock: granted exactly when free, a deadlock error for the owner, otherwise would-block; safety kept |
| `SyncObjects.Mutex.BoostOwner` | src/sync.rs:654-685 | boosts exactly when the target is earlier and not both are CFS, saving the original once |
| `SyncObjects.Mutex.Lock` | src/sync.rs:525-544 | is the abstract lock: granted when free, a deadlock error for the owner, an error for the idle thread, otherwise the caller suspended and the owner boosted; safety kept |
| `SyncObjects.Mutex.RestoreOwner` | src/sync.rs:687-700 | restores the saved deadline and clears the record, nothing when not boosted |
| `SyncObjects.Mutex.Unlock` | src/sync.rs:546-573 | is the abstract unlock: deadline restored, ownership handed to the most urgent waiter or given up; safety kept |

## Left out

- Link fields inside node objects: they are address-indexed maps owned by a tree, so two trees sharing a node is not modelled; entities detached from one tree start with cleared links in the next.
- `Schedulers.Scheduler`: its queues are sets and sequences with a least element. The operations on the trees, the list and the ring are proved to agree with those one at a time, in `TreeMeaning` and `MessageMeaning`; a scheduler object that owns the trees is not part of this model.
- `RunQueues.RunQueue`: `sched_tick_cnt` and `cfs_sched_ticks_from_vruntime` are statistics whose product needs a bound of its own.
- Width of `vruntime` and of the product in `cfs_vruntime_delta`: unbounded here, `u64` in the source.
- `MessageProtocol.QueueStepInv`: the retry loops appear as repeated `SendOnce` and `ReceiveOnce` steps, and the error for calls before any thread runs does not arise, because a current thread always exists.
- `Inheritance.InheritanceRestored`: states one mutex; the restore order across several boosted mutexes held at once is not a property of the code.
- `Inheritance.LockLends`: names the least deadline for an owner's expiry of at most `u64::MAX`, as it is in the source; the model's times are unbounded.
- Budget overrun counters, trace counters, deadline-miss printing and other diagnostics: output only.
- `src/arch`, `src/clock.rs`, interrupt masking and atomic orderings: only the reload limits and atomic steps are kept.
- `container_of` offsets, thread builders, stack checks and the numeric event tags: single-branch checks and tables.
- Tie-break of the timeout tree by wait event: a sleeper never has one, so wake time and address decide.
- Starvation freedom and bounded blocking of message-queue waiters: docs/message_queue.md disclaims both.
