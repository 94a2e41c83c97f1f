# qingyi: a verified model

A model in Dafny 4.11 of the parts of the qingyi network library that are hardest to get
right: its blocking synchronisation, the poller, the buffer and the calendar.

**Monitor, queue, pool, latch, thread start.** `Monitor` has the mutex with its `holder_`
and the conditions as a machine: each step is one step of one of any number of threads,
sleepers may wake without a notification, and any thread may take the free mutex first.
`QueueMachine`, `PoolMachine`, `LatchMachine` and `ThreadStart` put the code of
BoundedBlockingQueue, ThreadPool, CountDownLatch and Thread::Start on it. The key invariant
counts: while a thread sleeps for a unit (an element, a free slot, a queued job), the units
are no more than the threads that stand for one. From it follow that no wake-up is lost,
that nobody deadlocks, and what Stop achieves (`PoolShutdown`) and does not (`PoolLateRun`,
`PoolLostCalls`).
`QueueCode`, `PoolCode` and `LatchCode` are classes with the source's fields, loops and
assertions, run by one thread while a schedule lets the others go on between any two of its
steps. Whatever the schedule, which they play out turn by turn, they take steps of the
machines only, so all that holds in every run of a machine holds of them.

**Poller.** `Channels` is the life of one channel, as the assertions of the poller allow it.
`Poller` has the classes Channel and PollPoller: a map, a dense vector and an index in every
channel that agree after every operation, and a list of active channels that is exact.
`PollerRuns` has whole runs of many channels on one poller.

**Buffer.** `BufferModel` gives each operation as a function on what a buffer shows, compares
it with a byte queue over whole runs, and bounds the storage. `Endian` and `BufferCodec` are
the integers in network order. Class `Buffers.Buffer` is the array code, proved against
the functions.

**Calendar.** Julian day numbers and civil dates, with the division of C++, against a
reference calendar; the round trips, the order and the 32-bit range, each with its exact
condition.

`dafny verify dfyconfig.toml` verifies the project.

## Where the code and its comments, or its evident meaning, differ

- thread_pool_.cc:40-49: Stop does not notify `not_full_`. A call of Run that waits for room
  can wait for good: PoolLateRun has a run in which one does, PoolLostCalls how many do.
- channel_.h:101-103: DisableAll does not update the poller.
- poll_poller_.cc:58-68: the first update of a channel is not disabled when it has no events.
- poll_poller_.cc:71 is read as a comparison, :108 as the `fd` of the entry, the comma in the
  loop condition at :44 as the end of the condition, and spellings of one name as that name.
- date_.cc:12-32: division truncates, so before -4800-03-01 the conversions are not inverse.
- date_.h:70-73: the remainder truncates too, so WeekDay is negative for most day numbers below -1.
- stringpiece_.h:54-60: the length is an int, so Shrink loses content of 2^31 bytes and more.

## Model

| member | source | states |
|---|---|---|
| Monitor.MoveKeepsSound | qingyi/util/mutex_.h:33-41 | every step of Lock, UnLock and Wait, of any thread in any interleaving, keeps mutual exclusion: exactly the owner is between taking and giving back the mutex, and `holder_` is the owner inside the block and 0 elsewhere |
| Monitor.HolderIsOwner | qingyi/util/mutex_.h:25-41 | a nonzero `holder_` is the owner; owner and holder differ exactly in the windows in which the owner has the mutex and is not inside the block |
| Monitor.HolderInEveryRun | qingyi/util/mutex_.h:25-31 | after every run of arrivals, steps and departures from a fresh mutex, AssertLocked succeeds for exactly the thread inside the guarded block |
| Monitor.MoveKeepsCovered | qingyi/util/condition_.h:23-36 | no lost wake-up, one step: if at most as many units are there as threads that stand for one while somebody sleeps for them, this is so after any step, whatever the others do, with barging and wake-ups without a notification |
| Monitor.NotifyKeepsCovered | qingyi/util/condition_.h:30-36 | a notification that wakes at least one sleeper, if there is any, hands the unit of the notifying thread on |
| Monitor.FreeMutexCredits | qingyi/util/condition_.h:23-26 | while nobody owns the mutex only woken threads stand for a unit |
| Monitor.MoveTouches | qingyi/util/condition_.h:23-36 | a step moves its own thread to one place, and otherwise only wakes sleepers of the notified condition |
| Monitor.Bystander | qingyi/util/mutex_.h:33-41 | while a thread is in the block no other takes a step there, and a step of another does not move it |
| Monitor.SchedulerIsFree | qingyi/util/condition_.h:23-36 | who goes next is not fixed: any sleeper may wake without a notification, anybody may take the free mutex, and a notification may wake exactly the sets of sleepers of its condition that are not empty while one sleeps |
| Monitor.HeldUpExactly | qingyi/util/condition_.h:23-26 | a thread is held up, as the operations of QueueCode, PoolCode and LatchCode may end, exactly when the monitor lets it take no step but to wake without a notification |
| Monitor.NotifiedAreWoken | qingyi/util/condition_.h:30-36 | exactly the notified threads are woken |
| History.SameByThread | qingyi/util/thread_pool_.cc:92-102 | when two histories agree thread by thread, they agree as multisets: what no thread lost or doubled was not lost or doubled at all |
| QueueMachine.StepKeepsTidy | qingyi/util/bounded_blocking_queue_.h:29-59 | every step keeps the queue within its capacity, mutual exclusion, and every call where its code allows it to be |
| QueueMachine.SchedulerStaysFree | qingyi/util/bounded_blocking_queue_.h:29-59 | Put and Take do not restrict the scheduler, and any thread may call either at any time |
| QueueMachine.NewestAreKept | qingyi/util/bounded_blocking_queue_.h:35-35 | push_back keeps the newest elements, as many as the capacity |
| QueueMachine.StepKeepsNobodyForgotten | qingyi/util/bounded_blocking_queue_.h:29-59 | every step keeps: while a taker sleeps the elements number at most the threads that stand for one (woken or checking takers, putters that still notify); the mirror image for putters and free slots |
| QueueMachine.StepKeepsOrder | qingyi/util/bounded_blocking_queue_.h:29-59 | every step keeps: what was put is what was taken, in order, followed by the queue; each thread returned what it took, in order, but for the element in its hand |
| QueueMachine.EveryRunKeepsInv | qingyi/util/bounded_blocking_queue_.h:21-59 | all of this in every run of any threads from an empty queue of any capacity |
| QueueMachine.AssertionsHold | qingyi/util/bounded_blocking_queue_.h:34-36 | at the push and the pop both assertions hold and the caller holds the lock, so that the circular buffer never overwrites and an empty one is never read |
| QueueMachine.NoLostWakeup | qingyi/util/bounded_blocking_queue_.h:29-59 | while the mutex is free: if a taker sleeps the queue is no longer than the woken takers are many; if a putter sleeps the free slots are no more than the woken putters |
| QueueMachine.NoDeadlock | qingyi/util/bounded_blocking_queue_.h:29-59 | if takers and putters sleep at the same time, at least `capacity` threads are awake for them |
| QueueMachine.StuckMeansAsleep | qingyi/util/bounded_blocking_queue_.h:29-59 | nothing but new calls and wake-ups without a notification can happen exactly when every call sleeps |
| QueueMachine.StuckMeansNothingToDo | qingyi/util/bounded_blocking_queue_.h:29-59 | then takers are left only with an empty queue and putters only with a full one, never both if the capacity is positive |
| QueueMachine.StepsRunOut | qingyi/util/bounded_blocking_queue_.h:29-59 | every other step lowers the measure (calls that have not acted, notifications due, sum of ranks) |
| QueueMachine.NoEndlessRun | qingyi/util/bounded_blocking_queue_.h:29-59 | so no infinite run is without new calls and wake-ups without a notification |
| QueueCode.RivalLeaves | qingyi/util/bounded_blocking_queue_.h:29-59 | what a step of another thread leaves to a thread: its call, its place or a wake-up, its record, and inside the block the queue |
| QueueCode.BoundedBlockingQueue.constructor | qingyi/util/bounded_blocking_queue_.h:21-27 | an empty queue with its capacity, and the whole schedule to come |
| QueueCode.BoundedBlockingQueue.Others | qingyi/util/bounded_blocking_queue_.h:29-59 | the other threads take, of the next turn of the schedule, exactly the steps that they can; the thread is undisturbed |
| QueueCode.TurnsAreRun | qingyi/util/bounded_blocking_queue_.h:29-59 | whatever the schedule, the steps of the thread in a call and the turns of the others are together a run of the machine to the same state |
| QueueCode.TurnTakesAll | qingyi/util/bounded_blocking_queue_.h:29-59 | a turn of the others is a run of steps out of its batch, in order, and leaves out exactly those of the thread itself and those that could not be taken when it came to them |
| QueueCode.TurnOfRun | qingyi/util/bounded_blocking_queue_.h:29-59 | a batch that is a run of other threads is run to its end, as the machine says |
| QueueCode.BoundedBlockingQueue.Lock | qingyi/util/mutex_.h:33-36 | when it succeeds the thread owns the mutex and is inside the block; it fails only when the schedule has ended and another thread has the mutex; the record is unchanged |
| QueueCode.BoundedBlockingQueue.Wait | qingyi/util/condition_.h:23-26 | when it succeeds the thread owns the mutex again and other threads have gone on; it fails only when the schedule has ended and the thread sleeps or is woken while another has the mutex; the record is unchanged |
| QueueCode.BoundedBlockingQueue.Signal | qingyi/util/condition_.h:30-32 | its step notifies a set of sleepers that is empty only if none sleeps, and the thread keeps the lock |
| QueueCode.BoundedBlockingQueue.UnLock | qingyi/util/mutex_.h:38-41 | gives the mutex back and ends the call; Take returns the element it has taken |
| QueueCode.BoundedBlockingQueue.Put | qingyi/util/bounded_blocking_queue_.h:29-37 | an interleaving of the machine from the old state; when it returns, the thread has put exactly `x`; it fails to return only when the schedule has ended and the thread sleeps or another has the mutex, and has then put nothing |
| QueueCode.BoundedBlockingQueue.Take | qingyi/util/bounded_blocking_queue_.h:49-59 | an interleaving of the machine from the old state; when it returns, it returns exactly the one element that the thread has taken; it fails to return only when the schedule has ended and the thread sleeps or another has the mutex, and has then taken nothing |
| QueueCode.BoundedBlockingQueue.PushAndReturn | qingyi/util/bounded_blocking_queue_.h:34-37 | after the loop: the assertion holds, `x` is pushed and a taker notified, the call returns |
| QueueCode.BoundedBlockingQueue.PopAndReturn | qingyi/util/bounded_blocking_queue_.h:54-58 | after the loop: the assertion holds, the front of the queue is popped, a putter notified, and the front returned |
| PoolMachine.StepKeepsTidy | qingyi/util/thread_pool_.cc:40-102 | every step of workers, callers of Run and the caller of Stop keeps mutual exclusion, the bound of the queue, every thread where its code allows it, and `running_` true until Stop has the lock |
| PoolMachine.SchedulerStaysFree | qingyi/util/thread_pool_.cc:40-102 | Run, Stop and the workers do not restrict the scheduler, but that Stop notifies all; any thread may call Run at any time, and Stop until somebody has |
| PoolMachine.StepKeepsNobodyForgotten | qingyi/util/thread_pool_.cc:56-85 | every step keeps tasks and free slots covered while somebody sleeps for them, and: when `running_` is false a worker sleeps only until the thread in Stop, which has the lock, notifies |
| PoolMachine.NoNewSleeper | qingyi/util/thread_pool_.cc:71-75 | once `running_` is false no step makes a worker sleep, and the notification of Stop leaves none asleep |
| PoolMachine.UnboundedNeverWaits | qingyi/util/thread_pool_.cc:87-90 | with `max_queue_size_` 0 no caller of Run ever sleeps |
| PoolMachine.StepKeepsConserved | qingyi/util/thread_pool_.cc:56-102 | every step keeps: what Run queued is what Take removed, in order, followed by the queue; each worker ran what it removed, in order, but for the one in its hand; an empty function is not run |
| PoolMachine.EveryRunKeepsInv | qingyi/util/thread_pool_.cc:23-102 | all of this in every run of a pool that Start has left with any workers and any bound, whatever Run and Stop do |
| PoolMachine.AssertionsHold | qingyi/util/thread_pool_.cc:62-65 | at both calls of IsFull the caller holds the lock, so AssertLocked succeeds, also after a wait; after the loop the queue is not full |
| PoolMachine.QueueIsBounded | qingyi/util/thread_pool_.cc:87-90 | in every run the queue of a bounded pool is at most `max_queue_size_` long |
| PoolMachine.NoLostWakeup | qingyi/util/thread_pool_.cc:56-85 | while the mutex is free: if a worker sleeps the pool runs and the tasks are no more than the woken workers; if a caller sleeps the free slots are no more than the woken callers |
| PoolMachine.TasksRunOrQueued | qingyi/util/thread_pool_.cc:92-102 | once all workers have exited, each task was queued exactly as often as it was run plus as often as it is in the queue; each worker has run all that it removed, in order |
| PoolShutdown.StopNotifies | qingyi/util/thread_pool_.cc:40-45 | the notification of Stop leaves `running_` false and no worker asleep |
| PoolShutdown.NobodySleepsAgain | qingyi/util/thread_pool_.cc:71-75 | from then on, in every run with any new calls and wake-ups, no worker sleeps on `not_empty_` |
| PoolShutdown.WorkerStepsRunOut | qingyi/util/thread_pool_.cc:92-102 | from then on each worker takes at most nine steps more, in any interleaving with anything else |
| PoolShutdown.OneMoreTask | qingyi/util/thread_pool_.cc:92-102 | from then on each worker removes at most one more task, and none if it is not in Take |
| PoolShutdown.StandsStillWithoutStop | qingyi/util/thread_pool_.cc:56-102 | where a pool that nobody stops comes to a stand, every call of Run has returned, the queue is empty and every task is run |
| PoolShutdown.StandsStillAfterStop | qingyi/util/thread_pool_.cc:40-49 | where a pool that somebody stops comes to a stand, all workers have exited and Stop has returned; a call of Run is left only if the queue is full |
| PoolShutdown.StepsRunOut | qingyi/util/thread_pool_.cc:40-102 | every step but new calls and wake-ups without a notification lowers the measure (calls that have not acted, queue length, notifications due, sum of ranks) |
| PoolShutdown.NoEndlessRun | qingyi/util/thread_pool_.cc:40-102 | so the pool comes to a stand, if every task that is run comes to its end |
| PoolLateRun.RunKeepsHopeless | qingyi/util/thread_pool_.cc:40-49 | with all workers gone and a full queue, a call of Run that has not pushed never returns, in any run: Stop does not notify `not_full_`, and nobody takes |
| PoolLateRun.GoesToItsEnd | qingyi/util/thread_pool_.cc:56-69 | a call of Run with room, and a call of Stop, has a run of nothing but its own steps to its end, with exactly its effect; from sleep the run begins with a wake-up without a notification |
| PoolLateRun.LateRunCanReturnExactly | qingyi/util/thread_pool_.cc:56-69 | when the workers have exited, there is a run (with wake-ups without a notification, if need be) in which a call of Run that has not pushed returns, if and only if the queue is not full |
| PoolLostCalls.StepKeepsClaims | qingyi/util/thread_pool_.cc:56-69 | the calls of Run that have not pushed, the queued tasks and the tasks ever taken together stay as many in every step but a new call of Run, in a running pool and in a stopped one |
| PoolLostCalls.FewMoreTasks | qingyi/util/thread_pool_.cc:71-85 | once `running_` is false the workers take no more tasks, in any run, than workers are in Take at that time |
| PoolLostCalls.LostCallsExactly | qingyi/util/thread_pool_.cc:40-69 | from any state of a pool with workers: wherever the pool, stopped by then, comes to a stand without new calls of Run, the calls that have not returned are exactly as many as calls that had not pushed and queued tasks, less the tasks taken since, exceed `max_queue_size_`; none if it is 0 |
| PoolLostCalls.LostCallsWithin | qingyi/util/thread_pool_.cc:40-69 | from any state with `running_` false on, that is at most the excess of calls and queued tasks over the bound, and at least the excess when each worker in Take takes one task |
| PoolLostCalls.AllReturnExactly | qingyi/util/thread_pool_.cc:40-69 | when a call of Run must return after Stop: once the workers have exited, wherever the pool comes to a stand all calls have returned if and only if the pool is unbounded or calls that have not pushed and queued tasks together fit the bound |
| PoolLostCalls.SleeperNeverReturns | qingyi/util/thread_pool_.cc:40-49 | a call that sleeps on `not_full_` when the workers have exited returns in no run in which it does not itself wake without a notification, whatever room there is |
| PoolLateRun.RunMayWaitForGood | qingyi/util/thread_pool_.cc:40-69 | the failing run: one worker, room for one task, a task queued, Stop called and returned, and a call of Run that never returns |
| PoolCode.RivalLeaves | qingyi/util/thread_pool_.cc:40-102 | what a step of another thread leaves to a thread: its job, its place or a wake-up, its record, and inside the block the pool; `running_` never becomes true |
| PoolCode.TurnsAreRun | qingyi/util/thread_pool_.cc:40-102 | whatever the schedule, the steps of the thread and the turns of the others are together a run of the machine to the same state |
| PoolCode.TurnTakesAll | qingyi/util/thread_pool_.cc:40-102 | a turn of the others is a run of steps out of its batch, in order, and leaves out exactly those of the thread itself and those that could not be taken when it came to them |
| PoolCode.TurnOfRun | qingyi/util/thread_pool_.cc:40-102 | a batch that is a run of other threads is run to its end, as the machine says |
| PoolCode.ThreadPool.constructor | qingyi/util/thread_pool_.cc:23-38 | the pool when Start has returned |
| PoolCode.ThreadPool.Full | qingyi/util/thread_pool_.cc:87-90 | AssertLocked holds, and the result says whether a bounded queue has reached its bound |
| PoolCode.ThreadPool.Run | qingyi/util/thread_pool_.cc:56-69 | an interleaving of the machine; when it returns the thread has queued exactly this task, or, without workers, has run it; it fails to return only when the schedule has ended and the thread sleeps or another has the mutex, and has then queued nothing |
| PoolCode.ThreadPool.Take | qingyi/util/thread_pool_.cc:71-85 | when it returns the worker has removed the one task that it returns, or none, and then the pool does not run; it fails to return only when the schedule has ended and the worker sleeps or another thread has the mutex |
| PoolCode.ThreadPool.RunInThread | qingyi/util/thread_pool_.cc:92-102 | the worker ends only when the pool does not run; it fails to end only when the schedule has ended and it is held up in Take, asleep or with the mutex at another thread; either way it has run every task that it removed, in order, even if Stop came in between |
| PoolCode.ThreadPool.Stop | qingyi/util/thread_pool_.cc:40-49 | when it returns the pool, with or without workers, does not run and all workers have exited; it fails to return only when the schedule has ended and another thread has the mutex or a worker has not exited |
| PoolCode.ThreadPool.Joins | qingyi/util/thread_pool_.cc:46-48 | returns when all workers have exited, and fails to only when the schedule has ended and one has not |
| LatchMachine.StepKeepsInv | qingyi/util/countdown_latch_.cc:12-25 | every step keeps the count n less the calls of CountDown that have decremented it, and nobody asleep at zero but for the moment before the notification |
| LatchMachine.SchedulerStaysFree | qingyi/util/countdown_latch_.cc:12-25 | Wait and CountDown do not restrict the scheduler, but that CountDown notifies all; any thread may call either at any time |
| LatchMachine.EveryRunKeepsInv | qingyi/util/countdown_latch_.cc:5-25 | this in every run of a latch made with any count |
| LatchMachine.NobodySleepsAtZero | qingyi/util/countdown_latch_.cc:19-25 | once the count is zero or below, nobody sleeps while the mutex is free |
| LatchMachine.WaitReturnsAfterCountDowns | qingyi/util/countdown_latch_.cc:12-17 | in every run, Wait returns only after at least n decrements |
| LatchMachine.StuckMeansTooFewCountDowns | qingyi/util/countdown_latch_.cc:12-25 | where the latch comes to a stand only calls of Wait are left, and only if CountDown was called fewer than n times |
| LatchMachine.StepsRunOut | qingyi/util/countdown_latch_.cc:12-25 | every step but new calls and wake-ups without a notification lowers a measure |
| LatchCode.TurnsAreRun | qingyi/util/countdown_latch_.cc:12-25 | whatever the schedule, the steps of the thread and the turns of the others are together a run of the machine to the same state |
| LatchCode.TurnTakesAll | qingyi/util/countdown_latch_.cc:12-25 | a turn of the others is a run of steps out of its batch, in order, and leaves out exactly those of the thread itself and those that could not be taken when it came to them |
| LatchCode.TurnOfRun | qingyi/util/countdown_latch_.cc:12-25 | a batch that is a run of other threads is run to its end, as the machine says |
| LatchCode.CountDownLatch.Wait | qingyi/util/countdown_latch_.cc:12-17 | an interleaving of the machine; it returns only with the count at zero or below, after at least n decrements, and fails to only when the schedule has ended and the thread sleeps or another has the mutex |
| LatchCode.CountDownLatch.CountDown | qingyi/util/countdown_latch_.cc:19-25 | when it returns the count is lower by at least one, and at zero or below nobody sleeps while the mutex is free; it fails to return only when the schedule has ended and another thread has the mutex |
| ThreadStart.StepKeepsInv | qingyi/util/thread_.cc:60-64 | every step of the two threads keeps the handshake: one decrement exactly when the new thread has made its own, after it has stored its id |
| ThreadStart.StartReturnsWithTid | qingyi/util/thread_.cc:140-153 | in every run, when Start comes to `assert(tid_ > 0)` and when it returns on the success path, `tid_` is the id of the new thread; a failed pthread_create leaves the thread not started |
| ThreadStart.StuckMeansStarted | qingyi/util/thread_.cc:140-153 | the handshake comes to a stand only when Start has returned and the thread function runs |
| ThreadStart.NoEndlessRun | qingyi/util/thread_.cc:140-153 | it does come to a stand: Start returns |
| Channels.LifeFromHistory | qingyi/net/channel_.h:81-103 | the state of a channel and of its entry in the poller, from its history of calls: the events of its last update, disabled exactly after two updates of which the last left none |
| Channels.EnableReadingSets | qingyi/net/channel_.h:81-84 | EnableReading sets the bits 1 and 2 and leaves all others |
| Channels.DisableReadingClears | qingyi/net/channel_.h:86-89 | DisableReading clears the bits 1 and 2 and leaves all others |
| Channels.EnableWritingSets | qingyi/net/channel_.h:91-94 | EnableWriting sets the bit 4 and leaves all others |
| Channels.DisableWritingClears | qingyi/net/channel_.h:96-99 | DisableWriting clears the bit 4 and leaves all others |
| Channels.EventsFromHistory | qingyi/net/channel_.h:81-103 | after any calls a direction has its bits exactly if some call enabled it and no later one disabled it or all; no other bit is ever set |
| Channels.UpdatesAreAccepted | qingyi/net/poller/poll_poller_.cc:58-75 | until it is removed a channel can be updated at any time without failing an assertion |
| Channels.RemoveAcceptedExactly | qingyi/net/poller/poll_poller_.cc:85-94 | Remove passes every assertion if and only if the channel was updated at least twice and its last update left it without events |
| Channels.DisciplinedRun | qingyi/net/channel_.h:81-99 | in a run that begins with an Enable call and uses only Enable and Disable calls, the poller always has the channel's events, and it can be removed exactly when it has none |
| Channels.NeverAddedAgain | qingyi/net/poller/poll_poller_.cc:58-75 | a removed channel keeps its index: no later update or removal of it passes the assertions |
| Channels.UndisciplinedRemovals | qingyi/net/channel_.h:101-103 | DisableAll does not tell the poller, so Remove fails after it; a first update without events is not disabled, so Remove fails after it too; a further Disable call repairs the first |
| Poller.IndicesAreDistinct | qingyi/net/poller/poll_poller_.cc:56-83 | two registered channels never share an index |
| Poller.EntryIsWritten | qingyi/net/poller/poll_poller_.cc:58-82 | a first update adds an entry of fd and events without revents; a later one writes the entry again, with -fd-1 in place of fd if there are no events, which is negative for fd 0 too, and touches no other |
| Poller.AddKeepsAgreement | qingyi/net/poller/poll_poller_.cc:58-68 | the first update of a channel keeps map, vector and indices in agreement |
| Poller.UpdateKeepsAgreement | qingyi/net/poller/poll_poller_.cc:69-82 | a later update does, and rewrites only its own entry, `fd` or `-fd-1` |
| Poller.RemoveKeepsAgreement | qingyi/net/poller/poll_poller_.cc:95-115 | swapping with the last entry, repairing the moved channel's index and popping does, and takes away the given channel only |
| Poller.ReadyIsExact | qingyi/net/poller/poll_poller_.cc:41-54 | the list of ready descriptors has exactly the registered channels whose entries have events, each once, with rising indices |
| Poller.ReadyIsInOrder | qingyi/net/poller/poll_poller_.cc:41-54 | of two listed descriptors the first has the lower index |
| Poller.ReadyIsCounted | qingyi/net/poller/poll_poller_.cc:41-54 | there are as many as poll() returns |
| Poller.ReadyUpTo | qingyi/net/poller/poll_poller_.cc:43-45 | a walk that stops early, when that many were found, has found the first that many |
| Poller.Channel.Update | qingyi/net/channel_.cc:64-67 | registers the channel with its events; the life of the channel takes the step of the model, and exactly this channel joins the registered ones |
| Poller.Channel.EnableReading | qingyi/net/channel_.h:81-84 | adds the read events and updates the poller, and exactly this channel joins the registered ones |
| Poller.Channel.DisableReading | qingyi/net/channel_.h:86-89 | takes the read events away and updates the poller, and exactly this channel joins the registered ones |
| Poller.Channel.EnableWriting | qingyi/net/channel_.h:91-94 | adds the write event and updates the poller, and exactly this channel joins the registered ones |
| Poller.Channel.DisableWriting | qingyi/net/channel_.h:96-99 | takes the write event away and updates the poller, and exactly this channel joins the registered ones |
| Poller.Channel.DisableAll | qingyi/net/channel_.h:101-103 | takes all events away and leaves the poller as it is |
| Poller.Channel.Remove | qingyi/net/channel_.cc:69-73 | takes exactly this channel out of the poller when the assertions allow it; of the indices of the others only that of the channel with the last entry changes, to the index that became free |
| Poller.PollPoller.UpdateChannel | qingyi/net/poller/poll_poller_.cc:56-83 | the map and the registered channels gain the channel, the vector is the old one with one entry added or rewritten, the agreement is kept, and no assertion about the poller's own structures fails |
| Poller.PollPoller.CanRemoveByEntry | qingyi/net/poller/poll_poller_.cc:87-94 | what RemoveChannel demands of its caller is what the assertions on the channel and its entry say |
| Poller.PollPoller.RemoveChannel | qingyi/net/poller/poll_poller_.cc:85-115 | the map and the registered channels lose exactly this channel, the vector is the old one without its entry, the last one in its place, the index of exactly the moved channel is repaired, and the agreement is kept |
| Poller.PollPoller.FillActiveChannels | qingyi/net/poller/poll_poller_.cc:41-54 | appends the channels of the first `num_events` ready entries in order, each with its revents stored, and touches no other; the lookup never fails |
| Poller.PollPoller.Poll | qingyi/net/poller/poll_poller_.cc:21-39 | given what POSIX promises of poll(), the channels that it appends are exactly the registered ones whose entries have events, each once, in the order of the vector; on an error it appends none |
| PollerRuns.DemandsOfLife | qingyi/net/poller/poll_poller_.cc:56-94 | for channels with descriptors of their own, what the assertions of the poller demand of a call is exactly what the channel's own history decides |
| PollerRuns.NewbornsShare | qingyi/net/channel_.cc:39-49 | a new poller and any new channels of it can start a run |
| PollerRuns.Do | qingyi/net/channel_.h:81-103 | one accepted call of a channel takes the step of its own life and leaves the lives of all other channels as they are, also when removing it moves another's entry |
| PollerRuns.DoPoll | qingyi/net/poller/poll_poller_.cc:21-39 | a call of poll() leaves all lives as they are, and reports no channel that is removed or whose entry is switched off |
| PollerRuns.Run | qingyi/net/poller/poll_poller_.cc:21-115 | over every run of adds, updates, removals and polls of any channels with descriptors of their own, each call accepted by its own channel's history: all calls pass all assertions, map, vector and indices agree, every channel ends as its own calls alone say, and exactly those with an entry are registered |
| BufferModel.ApplyActsOnQueue | qingyi/net/buffer_.h:100-189 | each operation keeps the indices in order and acts on the readable bytes as on a plain byte queue |
| BufferModel.EnsuredHasRoom | qingyi/net/buffer_.h:166-171 | EnsureWriteableBytes makes the room and keeps the content; in the compaction branch the reader index is beyond the cheap prepend area |
| BufferModel.EnsuredExactly | qingyi/net/buffer_.h:309-323 | with room behind nothing changes; else, if content, new bytes and 8 fit the storage, the content goes to index 8; else it stays in place and the storage ends just behind the new bytes |
| BufferModel.FreshHasRoom | qingyi/net/buffer_.h:38-48 | a new buffer has 8 bytes in front, 1024 behind and no content |
| BufferModel.GrowsExactly | qingyi/net/buffer_.h:309-323 | the storage grows if and only if readable bytes, the new ones and eight more exceed its size and the room behind is too small |
| BufferModel.RunIsQueueRun | qingyi/net/buffer_.h:100-189 | over every run the buffer is the byte queue |
| BufferModel.StreamConserved | qingyi/net/buffer_.h:141-160 | a run of appends and retrievals hands out exactly what was in the buffer and what was appended, in order, up to what is left |
| BufferModel.StepGrows | qingyi/net/buffer_.h:309-323 | one operation grows the storage only when the new content and its headroom exceed it, and to at most max(p + 8, 2 * p + 6) for a content of p bytes |
| BufferModel.SpaceBoundFromFresh | qingyi/net/buffer_.h:156-171 | over every run of Append, Prepend, Retrieve and UnWrite with peak content p the storage is at most 8 + initialSize if p is at most initialSize, and otherwise at most max(p + 8, 2 * p + 6) |
| BufferModel.SpaceBoundIsReached | qingyi/net/buffer_.h:309-323 | for every initial size and every peak some run reaches that bound: it is exact |
| BufferModel.Headroom | qingyi/net/buffer_.h:280-285 | over every run the prependable bytes and what was prepended since the last full drain are at least 8 together |
| BufferModel.HeaderFits | qingyi/net/buffer_.h:280-285 | after any run without Prepend a header of up to 8 bytes can be prepended |
| BufferModel.IntegerFits | qingyi/net/buffer_.h:261-285 | after any run without Prepend an integer of any width can be prepended |
| BufferCodec.MixedWidthRoundTrip | qingyi/net/buffer_.h:191-259 | any integers of any widths appended to any buffer come back, after its old content, by reads of the same widths on a host of any byte order, and leave it drained |
| BufferCodec.ReadAllReads | qingyi/net/buffer_.h:210-259 | reads of encoded items in front of any rest give back the values and leave the rest |
| BufferCodec.PrependedReadsFirst | qingyi/net/buffer_.h:261-278 | a prepended integer reads back first, and the old content is left |
| Endian.EncodeIsNetworkOrder | qingyi/net/endian_.h:13-35 | byte k of n is x / 256^(n-1-k) modulo 256, the division rounding down: two's complement, most significant byte first, whatever the byte order of the host (Appendix B of RFC 791) |
| Endian.DecodeIsTwosComplement | qingyi/net/endian_.h:13-35 | bytes are decoded to their sum with the weights 256^(n-1-k), less 256^n if the first is 128 or more |
| Endian.WidthsAreThoseOfIntTypes | qingyi/net/buffer_.h:191-208 | the integers of the widths 1, 2, 4 and 8 are those of int8_t, int16_t, int32_t and int64_t |
| Endian.DecodeEncode | qingyi/net/endian_.h:13-35 | an integer encoded on one host is decoded on any other |
| Endian.EncodeDecode | qingyi/net/endian_.h:13-35 | the bytes of a decoded integer are encoded again as they were |
| Buffers.CopyDown | qingyi/net/buffer_.h:316-318 | the overlapping copy to a lower place moves the bytes unchanged and touches nothing else |
| Buffers.CopyIn | qingyi/net/buffer_.h:156-160 | a copy from outside replaces exactly its range |
| Buffers.Resized | qingyi/net/buffer_.h:309-312 | the resized storage has the old bytes in front and zeros behind |
| Buffers.Buffer.constructor | qingyi/net/buffer_.h:41-48 | an empty buffer with 8 bytes in front and initialSize behind |
| Buffers.Buffer.Swap | qingyi/net/buffer_.h:54-58 | the two buffers change their storage and indices |
| Buffers.Buffer.Retrieve | qingyi/net/buffer_.h:100-108 | takes the first bytes off the content, the index moving on by as many; an emptied buffer starts again at index 8 |
| Buffers.Buffer.RetrieveAll | qingyi/net/buffer_.h:110-113 | empties the buffer, which starts again at index 8 |
| Buffers.Buffer.RetrieveAsString | qingyi/net/buffer_.h:141-146 | what is returned and what is left are the old content |
| Buffers.Buffer.RetrieveAllAsString | qingyi/net/buffer_.h:137-139 | returns the old content and empties the buffer |
| Buffers.Buffer.UnWrite | qingyi/net/buffer_.h:186-189 | takes the last bytes off the content |
| Buffers.Buffer.MakeSpace | qingyi/net/buffer_.h:309-323 | if content, new bytes and 8 fit the storage, moves the content down to index 8 in the same storage; else new storage, with just the room behind, the content at its place; both assertions hold |
| Buffers.Buffer.EnsureWriteableBytes | qingyi/net/buffer_.h:166-171 | makes the room and keeps the content, which stays where it is unless it has to move down to index 8 |
| Buffers.Buffer.Append | qingyi/net/buffer_.h:156-160 | adds the bytes at the end of the content, which stays where it is unless it has to move down to index 8 |
| Buffers.Buffer.Prepend | qingyi/net/buffer_.h:280-285 | adds the bytes in front of the content |
| Buffers.Buffer.AppendInt | qingyi/net/buffer_.h:191-208 | adds the network form of the integer at the end of the content |
| Buffers.Buffer.PeekInt | qingyi/net/buffer_.h:234-259 | decodes the first bytes to an integer of the width, and changes nothing |
| Buffers.Buffer.ReadInt | qingyi/net/buffer_.h:210-232 | decodes and retrieves the first bytes |
| Buffers.Buffer.PrependInt | qingyi/net/buffer_.h:261-278 | adds the network form of the integer in front of the content |
| Buffers.Buffer.Shrink | qingyi/net/buffer_.h:287-292 | new storage of 8 + max(1024, readable + reserve) bytes with the content that its StringPiece counts; it fails if the int length of the piece is negative, and then leaves the buffer with its storage |
| Buffers.ShrinkKeepsContent | qingyi/util/stringpiece_.h:54-60 | Shrink keeps the whole content if and only if it is shorter than 2^31 bytes; then 8 bytes are in front and at least the reserve behind |
| Calendar.QuotientTruncates | qingyi/util/date_.cc:12-32 | division rounds towards zero: the remainder has the sign of the dividend and is smaller than the divisor |
| Calendar.YearMonthDayIsValid | qingyi/util/date_.cc:20-32 | GetYearMonthDay gives a date of the calendar if and only if the day number is at least -32044, and then one from -4800-03-01 on |
| Calendar.JulianRoundTrip | qingyi/util/date_.cc:12-32 | from -32044 on, day number to date and back is the identity |
| Calendar.DateRoundTrip | qingyi/util/date_.cc:12-32 | for every valid date, date to day number and back is the identity if and only if the date is from -4800-03-01 on |
| Calendar.NextDayCounts | test/date/Date_unittest.cc:10-30 | for every valid date the next calendar day has the next day number, unless the date is one of the leap days before the epoch that the condition describes |
| Calendar.DayBeforeEpochDoesNotCount | qingyi/util/date_.cc:12-18 | such a day: -4800-02-29 has the day number of -4800-03-01 |
| Calendar.AdvanceCounts | test/date/Date_unittest.cc:62-89 | walking the calendar n days from any date of the epoch adds n to the day number, and the date of that number is the one reached |
| Calendar.OrderExactly | qingyi/util/date_.h:81-87 | for all valid dates `<` is the lexicographic order on (year, month, day), but for a 29 February of a leap year up to -4800 and the day after it, which `==` takes for one day; otherwise `==` is equality of dates |
| Calendar.OrderIsCalendarOrder | qingyi/util/date_.h:81-87 | so from -4800-03-01 on `<` is the lexicographic order and `==` equality |
| Calendar.WeekDayRange | qingyi/util/date_.h:70-73 | WeekDay is in [0, 6] if and only if the day number is at least -1 or the remainder is 0; it is j + 1 modulo 7, and in [-6, 0] below; from -1 on it steps by one modulo 7 |
| Calendar.WeekFollowsCalendar | test/date/Date_unittest.cc:56-89 | 1900-01-01 has day number 2415021, and n days later the week day is (1 + n) modulo 7, for every n |
| Calendar.YearMonthDayFitsExactly | qingyi/util/date_.cc:20-32 | no intermediate of GetYearMonthDay leaves the 32-bit range if and only if the day number is from -536902956 through 536838867 |
| Calendar.JulianFitsExactly | qingyi/util/date_.cc:12-18 | for every valid date, no intermediate of GetJulianDayNumber leaves the 32-bit range if and only if the date is from -5884290-05-13 through 5874689-12-15 |
| Calendar.ConvertingBackFits | qingyi/util/date_.cc:12-18 | converting the date of such a number, from -32044 on, back stays in range and gives the number |

## Left out

- Buffer::ReadFd (buffer_.cc): a system call.
- FindCRLF, FindEOL and kCRLF (buffer_.h:76-98): the searches ignore or misuse their start.
- RetrieveUntil, RetrieveInt8 to RetrieveInt64, Peek, ToStringPiece and the two other forms of Append: they are Retrieve, reads and Append by other names.
- Appending or prepending bytes of the buffer itself: the source of a copy is a value here, so it cannot overlap the storage.
- size_t is unbounded in the buffer: sums of lengths do not wrap around.
- EventLoop: only declared in the source; its UpdateChannel, RemoveChannel and HasChannel are taken to call the poller, and AssertInLoopThread to hold.
- Channel::HandleEvent, EventsToString and the callbacks: one branch each; callbacks are opaque.
- ::poll, sockets, InetAddress and name resolution: foreign calls; what poll() stores and returns is a parameter with the POSIX contract.
- File descriptors are non-negative and distinct open files; `static_cast<short>` of the events loses nothing, since the event bits fit.
- BlockingQueue: the bounded queue is harder.
- Empty, Full, Size, Capacity, get_count and quque_size: one read under the lock.
- Condition::WaitForSeconds, Singleton, ThreadLocal, AtomicInt, WeakCallback, TimeStamp: thin wrappers.
- The C++ memory model: the reads of `running_` and `threads_` without the lock are single steps.
- ThreadPool::Start and the destructor: Start is complete before Run and Stop are called, `max_queue_size_` is fixed before, Stop is called at most once, and the joins are one step; the init callback is left out.
- A Task is a function that comes to its end and does not call the pool; it runs in one step. An empty one given to a pool without workers throws and changes nothing.
- QueueCode, PoolCode and LatchCode: a schedule is finite, so an operation may also end held up, as its contract says; a method loop that could run for ever cannot be written without a bound. That the waiting ends is proved of the machines.
- QueueCode, PoolCode and LatchCode: the histories and the bookkeeping of the other threads are fields beside those of the source, and not ghost, because the steps of the other threads are computed from them.
- ThreadStart: the handshake is modelled on values, not as classes; the copy of `func_`, the thread name and prctl, Join, the detaching destructor and the lifetimes of ThreadData and of the latch are not modelled.
- Mutex and Condition as objects of their own: their steps are the methods Lock, UnLock, Wait and Signal of the classes that own them; the pthread error returns are not modelled.
- Date: ToIsoString and the constructor from struct tm.
