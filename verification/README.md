# The scheduler's protocols, modelled and proved

`cmpth` is a user-level task scheduler in Rust. It runs three kinds of work: scoped fork-join
closures that live on native stacks, stackful tasks that suspend by switching contexts, and
stackless tasks that are polled futures. Its hot paths are lock-free protocols on single machine
words, plus a few intrusive data structures. This project models them and proves that they keep
their promises in every run, for any number of workers, tasks, producers and any nesting.

The concurrent protocols are state machines on values. A step is one load, store, swap,
compare-and-swap, or one operation of a queue or kernel wait; any participant may take the next
step; a weak compare-and-swap may fail for no visible reason. Each such module has one inductive
invariant (`Inv`), a proof that every step keeps it (`StepKeeps`, built from one lemma per step),
and main theorems about every run: what holds in every state, and, over the run's steps, what a
step leads to (a wake to a poll, a registration to a call, a post to a ticket, an item to its run),
what happens exactly when, and that what was begun ends. Code that one thread runs by itself, or under a
lock, is a class with methods and loops: the return pool, the run queues, the server walk of the slot
delegator, a pass of the timer queue, a scoped branch, a worker's cells, and the loops on the wake
word.

| file | part of the scheduler |
|---|---|
| `Basics.dfy` | optional values and Euclidean division, for the other modules |
| `ForkJoin.dfy` | scoped `parallel_call`: push, run inline, pop back or help while a thief runs the branch |
| `ScopedTask.dfy` | a branch of a scoped call as the object with cells that it is |
| `Idle.dfy` | the parking idle policies `ParkIdle` and `SearchIdle` in the worker loop, against producers |
| `IdleWork.dfy` | what becomes of the work and the workers in runs of `Idle` |
| `AsyncTasks.dfy` | polled tasks: wake word, poll loop with symmetric transfer, awaiting a handle, `block_on` |
| `AsyncRuns.dfy` | what wakes, awaits and ends lead to in runs of `AsyncTasks` |
| `WakeWord.dfy` | the wake word's encoding and its compare-and-swap loops |
| `JoinProtocol.dfy` | one exiting task against one handle: join, poll, drop, reclaiming |
| `JoinWord.dfy` | how the join word packs its states |
| `Switching.dfy` | stackful workers: `cur_task`, `root_cont`, saved contexts, conditional suspension |
| `StackfulWorker.dfy` | one stackful worker's cells, updated in place, one call at a time |
| `ReturnPool.dfy` | the descriptor pool with intrusive lists, as heap code |
| `PostQueue.dfy` | the queue post delegator and its requests for unprompted polls |
| `SlotPost.dfy` | the slot post delegator's server walk |
| `FlagQueues.dfy` | queues with a flag in front of their lock, under concurrent pushers and takers |
| `RunQueues.dfy` | the run queues, operation by operation, and the two-queue form against the single queue |
| `Timers.dfy`, `TimerPass.dfy` | sleeping futures and the timer duty's poll; the pass as a loop |
| `Layout.dfy` | where closures, futures and results lie in a task's storage |
| `Folds.dfy` | sums and multiset totals over the components of a state |

Three promises turned out to need a condition, and the model keeps the code as it is:

* The parking policies lose no wakeup as long as no comparison of the 32-bit epoch is deceived: a
  comparison that puts a worker to sleep, or leaves a woken one asleep, is wrong exactly if the
  epoch has been bumped a positive multiple of 2^32 times since the worker's snapshot
  (`Idle.BlocksDeceivedExactly`, `Idle.StaysDeceivedExactly`). `Idle.EpochWrapLosesWakeup` is a run
  whose last step is such a comparison, and a worker blocks beside waiting work. The counters and
  the searcher cap are exact without any condition.
* Once `finish` has returned, no worker is blocked and none blocks again: always with a condition
  variable, whose wait reads `finished` under its lock (`Idle.FinishWakesForGood`); with a futex,
  which compares the epoch alone, exactly if the kernel queues no waiter that far overtaken
  (`Idle.FinishWakesExactly`; `Idle.EpochWrapOutlastsFinish` is a run where it does).
* `HybridRunQueue` behaves for its owner exactly as the single-queue `SpinRunQueue`; for thieves
  exactly while the deferred items, if more than one, cannot be told apart
  (`RunQueues.HybridRefinesSpin`, `RunQueues.StealAgreesExactly`).

A pointer survives the join word exactly if it is aligned enough for its tag
(`JoinWord.DecodeEncode`), and the source asserts that alignment only in debug builds.

## Model

| member | source | states |
|---|---|---|
| `ForkJoin.ParallelCallIsSequential` | src/scoped/sync_engine.rs:60-100 | in every run under every schedule, the root returns the sequential result of its fork tree; no "executed twice", "run twice" or "latch set without a result" panic occurs, and the put-back arm is never taken |
| `ForkJoin.EveryBranchAtMostOnce` | src/scoped/task.rs:105-124 | a branch's closure is taken at most once, inline or by one executor, never both, and a stored result is that of its closure |
| `ForkJoin.DequeHoldsOwnNewestBranches` | src/scoped/sync_engine.rs:71-88 | a worker's deque is always the newest-end part of the branches its own frames pushed, and is empty while it looks for other work |
| `ForkJoin.ForkedBranchIsAvailable` | src/scoped/sync_engine.rs:71-88 | while a call runs its first branch, the second is in some deque or in the hand of a worker about to execute it, until somebody has taken its closure |
| `ForkJoin.PopYieldsOwnBranchOrNothing` | src/scoped/sync_engine.rs:75-88 | after `a()` the pop yields this call's own branch or nothing |
| `ForkJoin.HelpingNeverDeadlocks` | src/scoped/sync_engine.rs:89-96 | while the root is unfinished some worker has a step that is not an empty spin |
| `ForkJoin.WorkIsBounded` | src/scoped/sync_engine.rs:89-96 | a run has at most as many steps other than empty spins as the fork tree's cost allows |
| `ForkJoin.NothingOutlivesTheRoot` | src/scoped/sync_engine.rs:170-208 | when `run` returns, every worker is idle with empty stack and deque, and every branch made was run exactly once and its result collected |
| `ForkJoin.StepKeeps` | src/scoped/sync_engine.rs:45-100 | every step of every worker keeps the ownership invariant of tasks, frames and deques |
| `ForkJoin.NoWaitingCycle` | src/scoped/sync_engine.rs:89-96 | in a stuck pool every waiter would wait for a branch begun later, without end, so there is none |
| `ScopedTask.StackTask.Execute` | src/scoped/task.rs:105-113 | stores the closure's result and sets the latch; panics exactly if the closure was taken before, and then changes nothing |
| `ScopedTask.StackTask.RunInline` | src/scoped/task.rs:117-120 | gives the closure's result without the latch; panics exactly if the closure was taken before |
| `ScopedTask.StackTask.TakeResult` | src/scoped/task.rs:122-124 | hands the stored result out once; what it hands out is the closure's result, with the latch set |
| `ScopedTask.RunBranch` | src/scoped/sync_engine.rs:77-98 | popped back or stolen, a branch gives its sequential result |
| `Idle.NoLostWakeup` | src/resumable/common/idle.rs:391-469 | `ParkIdle`, and `SearchIdle` with any cap: while the pool is not finished and no comparison of the epoch was deceived, with work in some queue and no producer inside `new_work`, some worker is neither blocked nor gone and has yet to look at that queue, although the last search looks at one queue at a time |
| `Idle.SkippedWakeIsCovered` | src/resumable/common/idle.rs:613-618 | a producer that skips the wake because it saw a searcher or no sleeper leaves an awake worker that has yet to look |
| `Idle.CountersAreExact` | src/resumable/common/idle.rs:574-605 | `sleepers` equals the registered workers and `searching` the searchers plus those inside `try_search`; neither underflows |
| `Idle.SearchersStayUnderCap` | src/resumable/common/idle.rs:476-587 | at most the cap's bound of workers hold `search_since` |
| `Idle.FinishWakesForGood` | src/resumable/common/idle.rs:272-276 | with condition variables, once `finish` has returned no worker is blocked and none blocks again, however often the epoch wrapped |
| `Idle.FinishWakesExactly` | src/resumable/common/worker_core.rs:60-63 | with either wait, some worker is blocked after `finish` has returned if and only if the kernel queued a waiter overtaken by a positive multiple of 2^32 bumps |
| `Idle.EpochWrapOutlastsFinish` | src/resumable/common/idle.rs:239-243 | a futex run in which `finish` has returned and the only worker blocks |
| `Idle.BlocksDeceivedExactly` | src/resumable/common/idle.rs:238-276 | a waiter's comparison puts it to sleep on a moved epoch exactly if it is overtaken by a positive multiple of 2^32 bumps (and, for a condition variable, the pool is not finished) |
| `Idle.StaysDeceivedExactly` | src/resumable/common/idle.rs:272-276 | a woken waiter may go back to sleep on a moved epoch exactly then, and only on a condition variable |
| `Idle.EpochWrapLosesWakeup` | src/resumable/common/idle.rs:391-459 | a run of 2^32 posts between comparison and the kernel's compare-and-queue, whose last step is a deceived comparison and leaves a worker blocked beside waiting work |
| `Idle.AwakeWorkersMove` | src/resumable/common/worker_core.rs:248-267 | every worker that is neither blocked nor gone can take its next step, and one is gone only with the finished flag set |
| `Idle.StepKeeps` | src/resumable/common/worker_core.rs:248-267 | every step of workers, producers and `finish` keeps counters, cap and, unless it is deceived, the memory of waiting work |
| `IdleWork.QueueBalance` | src/resumable/common/worker_core.rs:255-259 | in every run the items of a queue are those it began with and those published, less those taken |
| `IdleWork.WorkerBalance` | src/resumable/common/worker_core.rs:255-259 | what a worker takes it runs, once, before it takes anything else |
| `IdleWork.LeavesExactlyWhenFinished` | src/resumable/common/worker_core.rs:255-266 | a worker leaves exactly at the head of its loop with the finished flag set, and never comes back |
| `IdleWork.WorkIsTaken` | src/resumable/common/worker_core.rs:248-267 | with work in a queue, no producer inside `new_work`, the pool not finished and no comparison of the epoch deceived or about to be, some worker that is left to its own steps takes an item |
| `IdleWork.WatcherFindsWork` | src/resumable/common/worker_core.rs:248-267 | a worker that has yet to look at a non-empty queue, and whose snapshot of the epoch is not overtaken by 2^32 bumps, comes by steps of its own to take an item |
| `IdleWork.LastSearcherWakes` | src/resumable/common/idle.rs:621-635 | a searcher that takes an item while nobody else searches has, when it comes to run it, seen nobody registered, or woken one after the epoch was bumped |
| `IdleWork.OnlyTheLastSearcherWakes` | src/resumable/common/idle.rs:621-635 | a worker on its way to such a wake took its item while nobody else searched, and saw a worker registered before it wakes anybody |
| `IdleWork.WakesOnlyIfNeeded` | src/resumable/common/idle.rs:613-618 | a producer that goes on to wake somebody has seen a worker registered since it published, and with a limit on searchers also nobody searching |
| `IdleWork.WakeReaches` | src/resumable/common/idle.rs:254-295 | a wake wakes the waiter it names, unless a condition variable may keep it, and names one if anybody is blocked |
| `IdleWork.RegistersInTime` | src/resumable/common/idle.rs:427-461 | a worker of `ParkIdle` is registered exactly after its rounds of spinning and yielding without work; one of `SearchIdle` that decided to park registers next |
| `IdleWork.SearchersStopInTime` | src/resumable/common/idle.rs:637-679 | a worker of `SearchIdle` that neither searches nor has decided to park asks to search; a searcher stops, to park, exactly in every sixteenth fruitless round of its search, if its time is over |
| `IdleWork.OverCapParks` | src/resumable/common/idle.rs:574-605 | a worker becomes a searcher exactly if the number it read is under the cap; over it, it withdraws and goes to register, unless work was seen nearby |
| `IdleWork.ProducersEnd` | src/resumable/common/idle.rs:410-416 | every call of `new_work` ends, whatever others do |
| `AsyncTasks.OneOwner` | src/resumable/stackless/worker.rs:39-134 | at most one poll loop drives a task, it is queued at most once, and parked, queued, driven and held by a waker exclude one another |
| `AsyncTasks.NoWakeIsLost` | src/resumable/common/waker.rs:95-167 | a task with a wake that took effect since its last poll began is not parked, and another poll of it (or its end) is on the way; likewise for `block_on` |
| `AsyncTasks.FinishedChildRevivesParent` | src/resumable/stackless/thread.rs:32-96 | a parent registered as a child's async joiner, in its current poll or in any earlier one, is never left parked once the child has finished unless another registration replaced it: its next poll is due, or the loop that finished the child is about to wake it |
| `AsyncTasks.PollingNamesInnermostTask` | src/resumable/stackless/worker.rs:54-80 | while a future is polled, `polling_async` names exactly it, through nesting and symmetric transfer; loops below are inside an await |
| `AsyncTasks.TransferIsExclusive` | src/resumable/stackless/worker.rs:121-131 | a symmetric-transfer target is a spawned future nobody else drives or has queued, and no task exits twice |
| `AsyncTasks.LoopsNeverStuck` | src/resumable/stackless/worker.rs:39-134 | every active poll loop and every waking thread can take its next step |
| `AsyncTasks.PopKeeps` | src/resumable/stackless/thread.rs:108-131 | the local pop of the reclaim fast path, from a task or from a `block_on`, with each of its outcomes (nothing; the child, whose poll loop starts in place; another task), keeps the invariant of owners, words, loops and joiners |
| `AsyncTasks.PutBackKeeps` | src/resumable/stackless/thread.rs:120-127 | putting another task back after the fast path's pop keeps the invariant |
| `AsyncTasks.RegisterCasKeeps` | src/resumable/stackless/thread.rs:65-80 | storing `polling_async` as the child's async joiner, or for a `block_on`, which has none, a boxed waker, keeps the invariant; the joiner stored is the task that awaits |
| `AsyncTasks.StartKeeps` | src/resumable/common/waker.rs:68-70 | marking a task POLLING and naming it in `polling_async` keeps the invariant, as no other loop drives it |
| `AsyncTasks.ParkKeeps` | src/resumable/common/waker.rs:95-136 | parking after a poll, or turning a wake that came meanwhile into another poll, keeps the invariant, for tasks and `block_on` |
| `AsyncTasks.RequeueKeeps` | src/resumable/stackless/worker.rs:93-119 | pushing a notified task after `polling_async` was restored keeps the invariant |
| `AsyncTasks.SettleKeeps` | src/resumable/common/desc.rs:320-344 | swapping FINISHED in keeps the invariant: a registered joiner becomes the settling loop's business |
| `AsyncTasks.ClaimMissKeeps` | src/resumable/stackless/desc.rs:49-59 | a settling loop that finds the joiner not parked and notifies it keeps the invariant |
| `AsyncTasks.TransferKeeps` | src/resumable/stackless/desc.rs:49-59 | a settling loop that finds the joiner parked and goes on with it keeps the invariant |
| `AsyncTasks.WakeCasKeeps` | src/resumable/common/waker.rs:143-167 | a waker's compare-and-swap, claiming a parked task or notifying a polling one, keeps the invariant |
| `AsyncTasks.WakePushKeeps` | src/resumable/common/waker.rs:174-198 | queueing the claimed continuation keeps the invariant: it had no other owner |
| `AsyncTasks.EndingBlockOnKeeps` | src/resumable/stackful/waker.rs:314-322 | leaving a `block_on`, with IDLE left behind for late wakers, keeps the invariant |
| `AsyncTasks.OverwriteKeeps` | src/resumable/common/desc.rs:346-364 | another registration on, or a drop of, a child's handle at any moment keeps the invariant |
| `AsyncTasks.StepKeeps` | src/resumable/stackless/worker.rs:39-134 | every step of poll loops, wakers and handles keeps the invariant |
| `AsyncRuns.WakeLeadsToPoll` | src/resumable/common/waker.rs:143-198 | a call of `wake` on a task, once out of its loop, leads to a poll of the task begun after the call began, or one is due, unless the task has ended |
| `AsyncRuns.ParksExactlyIfNotRung` | src/resumable/common/waker.rs:95-136 | after a poll that returned Pending, a task parks exactly if no wake took effect since that poll began, and else goes on to another poll; a `block_on` that parks likewise |
| `AsyncRuns.FinishedChildIsHeard` | src/resumable/common/desc.rs:320-344 | when a child finishes with a parent registered, the parent has ended, been polled since, has its next poll due, or the loop that finished the child is about to wake it, at every later state |
| `AsyncRuns.TransfersExactlyIfParked` | src/resumable/stackless/worker.rs:121-131 | a loop that finished a child goes on with the joiner in place, past the queue, exactly if it was parked, and else ends, with the joiner notified if it was being polled |
| `AsyncRuns.AwaitIsAnswered` | src/resumable/stackless/thread.rs:32-96 | an await that returned Pending has registered the awaiting future, and once the child has finished the future is heard of likewise, unless another registration replaced it |
| `AsyncRuns.ReadyOnlyWhenFinished` | src/resumable/stackless/thread.rs:80-94 | an await takes a result only of a finished child |
| `AsyncRuns.ReclaimRunsTheChildOnly` | src/resumable/stackless/thread.rs:108-131 | the local pop of an await starts a poll loop exactly if it yields the child; any other task it yields goes back on top |
| `AsyncRuns.IdleUntilPolled` | src/resumable/stackless/desc.rs:16-25 | a spawned task is IDLE until its first poll begins |
| `AsyncRuns.EndsExactlyWhenReady` | src/resumable/stackless/worker.rs:82-119 | a task is done, or on its way to it, exactly if a poll of it returned Ready |
| `AsyncRuns.LoopsMoveOn` | src/resumable/stackless/worker.rs:39-134 | each access of a poll loop brings it nearer to its next poll or its end, except a compare-and-swap that finds the word changed |
| `WakeWord.WakeCell.ParkAfterPoll` | src/resumable/common/waker.rs:122-136 | the loop parks exactly if it did not find NOTIFIED, its store replaces the last word others left, and the other bits stay |
| `WakeWord.WakeCell.TryWake` | src/resumable/common/waker.rs:143-167 | the outcome is that of the last word before the store; exactly the caller that took it out of PARKED owns the continuation |
| `WakeWord.WakeCell.NoteShared` | src/resumable/stackless/desc.rs:65-78 | sets the shared mark on the last word before the store and keeps its state |
| `JoinProtocol.NothingTwice` | src/resumable/common/desc.rs:305-418 | the result is used, the descriptor freed, each box freed and woken, and the joiner resumed at most once; what the handle returns is what the task computed |
| `JoinProtocol.NothingLeaks` | src/resumable/common/thread.rs:68-122 | when both sides are through, the result was used, the descriptor freed and every boxed waker disposed of exactly once |
| `JoinProtocol.BoxWokenExactly` | src/resumable/common/desc.rs:320-344 | once the exit path is through, a boxed waker was woken, once, exactly if it was the one registered when FINISHED was published |
| `JoinProtocol.JoinerCalledExactly` | src/resumable/common/desc.rs:320-344 | a polling joiner is taken up, once, exactly if it was registered when FINISHED was published |
| `JoinProtocol.PendingPollIsAnswered` | src/resumable/stackless/thread.rs:65-82 | a poll of the handle that answers Pending has registered its waker, and unless it is replaced that waker has been woken exactly once when the exit path is through |
| `JoinProtocol.HandleGetsTheValue` | src/resumable/common/thread.rs:68-90 | a join or await returns what the closure or future computed, and reads it only with FINISHED published |
| `JoinProtocol.PathsEnd` | src/resumable/common/desc.rs:346-418 | the exit path and every operation on the handle end, but for compare-and-swaps that fail, each of which goes on with the new word |
| `JoinProtocol.ShortCuts` | src/resumable/stackful/thread.rs:268-306 | a stackful exit switches straight to its joiner exactly if that one is parked by then, and writes no result exactly if the handle is dropped by then; a join that finds FINISHED does not suspend |
| `JoinProtocol.NoUseAfterFree` | src/resumable/stackful/thread.rs:268-306 | nobody touches the descriptor or the result after the free, and the exit path touches neither after FINISHED unless the handle had been dropped before |
| `JoinProtocol.JoinerResumedOnce` | src/resumable/stackful/thread.rs:316-343 | a parked joiner stays parked until the one step that resumes it, with FINISHED and the result visible |
| `JoinProtocol.NeverStuck` | src/resumable/stackful/thread.rs:268-343 | until both sides are through some step is possible, and a parked joiner always has an exiting task still at work |
| `JoinProtocol.LoadsAreStable` | src/resumable/common/desc.rs:376-389 | a parked joiner and a dropped handle, which the exit path reads with plain loads, stay so |
| `JoinProtocol.StepKeeps` | src/resumable/common/desc.rs:305-418 | every step keeps word, result and box accounting |
| `JoinWord.DecodeEncode` | src/resumable/common/desc.rs:121-133 | a state packed into the word is read back exactly if its pointer is aligned for its tag |
| `JoinWord.EncodeDecode` | src/resumable/common/desc.rs:121-133 | every word stands for one state |
| `JoinWord.WordsAreStates` | src/resumable/common/desc.rs:121-133 | for aligned pointers, equal words are equal states |
| `Switching.OneOwner` | src/resumable/common/worker.rs:362-405 | every live task is in exactly one place: the pool of suspended tasks or one slot or hand of one worker |
| `Switching.SavedWhenSuspended` | src/resumable/stackful/worker.rs:424-445 | suspended tasks have a saved context, a running one has none |
| `Switching.ChecksHold` | src/resumable/stackful/worker.rs:312-508 | double resume, suspend over a live context, overwriting the root slot and "no runnable continuation" cannot happen; slots are full and empty where the code expects |
| `Switching.CancelRestores` | src/resumable/stackful/worker.rs:120-136 | a cancelled conditional suspension leaves every task where it was, with the same contexts |
| `Switching.BranchRunsOnce` | src/resumable/stackful/thread.rs:118-183 | a branch popped back with its first context never ran, and is not both called inline and switched to |
| `Switching.SwitchesNeverStuck` | src/resumable/stackful/worker.rs:112-143 | every switch can go on, and a running task can always suspend to its root |
| `Switching.SwitchCompletes` | src/resumable/stackful/worker.rs:312-408 | a suspension, exit or dispatch left alone ends with the picked task running and the old one, its context saved, where its callback put it |
| `Switching.CommitCompletes` | src/resumable/stackful/worker.rs:333-350 | so does a conditional suspension that is committed |
| `Switching.ForkCompletes` | src/resumable/stackful/worker.rs:356-374 | the child-first fork ends with the child running on a fresh stack and its parent, its context saved, among the suspended tasks |
| `Switching.ContextUsedOnce` | src/resumable/stackful/worker.rs:424-508 | no two tasks have the same context saved, and a context switched to never comes back |
| `Switching.TasksEndOnPurpose` | src/resumable/stackful/worker.rs:376-408 | a live task stays live until it exits or is called inline |
| `Switching.SwitchesEnd` | src/resumable/stackful/worker.rs:424-508 | every switch ends, others have no part in it, and one on trial is kept or taken back as its callback decides |
| `Switching.InlinedNeverStarts` | src/resumable/stackful/thread.rs:118-183 | a branch called inline was never switched to, never is, and is not called twice |
| `Switching.BeginKeeps` | src/resumable/stackful/worker.rs:213-226 | picking the next task or the root continuation keeps one owner per task and contexts where they belong |
| `Switching.ForkKeeps` | src/resumable/stackful/worker.rs:356-374 | the child-first fork keeps one owner per task and contexts where they belong |
| `Switching.MoveKeeps` | src/resumable/stackful/worker.rs:424-508 | every step of the shims of suspension, conditional suspension and exit keeps one owner per task and contexts where they belong |
| `Switching.StepKeeps` | src/resumable/stackful/worker.rs:312-597 | every step keeps linear ownership |
| `StackfulWorker.UltWorker.NextOrRoot` | src/resumable/stackful/worker.rs:158-226 | whatever source the dispatch policy picks from: the newest queued task, a stolen or external one, or else the root continuation, which is there |
| `StackfulWorker.UltWorker.SuspendToSched` | src/resumable/stackful/worker.rs:112-118 | the picked task runs, and the old one, a context of its own freshly saved, is in nobody's hands but the callback's |
| `StackfulWorker.UltWorker.CondSuspendToSched` | src/resumable/stackful/worker.rs:120-136 | committed as a suspension; cancelled, the same task runs, and the task picked has its context and is in the root slot if it came from there, else on top of the own queue |
| `StackfulWorker.UltWorker.YieldNow` | src/resumable/stackful/worker.rs:148-150 | the next task runs and the old one goes behind all that is queued |
| `StackfulWorker.UltWorker.ExitToSched` | src/resumable/stackful/worker.rs:139-145 | the next task runs and the old one is nowhere on the worker |
| `StackfulWorker.UltWorker.RunOn` | src/resumable/stackful/worker.rs:258-261 | the scheduler loop's context becomes the root continuation of the task it runs |
| `ReturnPool.ReturnPool.Take` | src/resumable/common/pool.rs:190-217 | takes the top of the local list, else makes the whole mailbox the local list and takes its top; nothing exactly if both are empty |
| `ReturnPool.ReturnPool.Give` | src/resumable/common/pool.rs:228-277 | home at once, else staged, in batches; keeps every chain linked, disjoint and of the right home worker |
| `ReturnPool.ReturnPool.Flush` | src/resumable/common/pool.rs:258-276 | a full batch is linked in front of the home worker's mailbox whole, and a new one holds just the node |
| `ReturnPool.ReturnPool.Alloc` | src/resumable/common/pool.rs:509-527 | a fresh node is made only when local list and mailbox are both empty, and its home is the caller |
| `ReturnPool.ReturnPool.Dealloc` | src/resumable/common/pool.rs:529-536 | an oversized node is freed at once, any other is given back |
| `ReturnPool.ReturnPool.FreeDesc` | src/resumable/common/thread.rs:80-90 | a caller on no worker frees a handed-out node directly; all lists stay as they are |
| `ReturnPool.ReturnPool.FreeChain` | src/resumable/common/pool.rs:308-314 | walks one chain to its end and frees each node after reading its link |
| `ReturnPool.ReturnPool.DropAll` | src/resumable/common/pool.rs:303-322 | teardown ends, frees every free node exactly once and no other; freed and handed-out nodes make up all nodes made |
| `ReturnPool.ReturnPool.StrandingBound` | src/resumable/common/pool.rs:244-277 | at most (workers - 1) * THRESHOLD free nodes of one worker are out of its reach |
| `ReturnPool.TakenPlaced` | src/resumable/common/pool.rs:190-217 | taking keeps every node in exactly one list of its home worker |
| `ReturnPool.GivenPlaced` | src/resumable/common/pool.rs:228-277 | so does giving |
| `ReturnPool.MovedPlaced` | src/resumable/common/pool.rs:258-271 | moving a whole list on top of another changes one link, that of its bottom node |
| `PostQueue.NoPostIsLost` | src/post.rs:323-366 | a slot with posts the server has not covered is on the stack, being listed, in the server's chain or hand, or its producer has not yet swapped `queued` |
| `PostQueue.ChainsAreDistinct` | src/post.rs:352-359 | the stack and the server's chain are finite and name every slot at most once between them |
| `PostQueue.TicketsGrow` | src/post.rs:185-192 | a batch names a producer at most once and a producer's tickets strictly grow across serves |
| `PostQueue.PollIsArranged` | src/post.rs:288-344 | while anything is on the stack the duty's deadline is set, a producer is about to ask, or a duty run has yet to take its last look, although the runner clears the deadline first |
| `PostQueue.QuietMeansServed` | src/post.rs:298-318 | when nobody is at work and no poll is asked for, the consumer has been passed, for every producer that posted, a ticket that counts all its posts |
| `PostQueue.SeenIsTold` | src/post.rs:185-192 | whatever the server has seen of a producer's posts is told of by a ticket of a batch passed on or of the batch at hand |
| `PostQueue.ServesAlone` | src/post.rs:346-366 | a `serve_now` that finds posts and a free lock and is left alone covers every slot on the stack and passes all tickets on, in a number of steps given by the stack's length |
| `PostQueue.PostsEnd` | src/post.rs:323-344 | every post ends, but for compare-and-swaps that find another head and go on with it |
| `PostQueue.CallersEnd` | src/post.rs:346-375 | every call of `serve_now` and `with_lock` ends, whatever others do |
| `PostQueue.AsksExactlyForWork` | src/post.rs:298-344 | a producer asks for a poll exactly if it put its slot on an empty stack, the duty exactly if it sees something on the stack after its serve, and who asks sets the deadline |
| `PostQueue.GoesForTheLock` | src/post.rs:346-350 | `serve_now` goes for the lock exactly if it sees posts and the lock free |
| `PostQueue.CallersNeverStuck` | src/post.rs:346-375 | every caller and every holder of the server lock can take its next step |
| `PostQueue.PostKeeps` | src/post.rs:323-344 | every step of a post keeps chains, flags, counts and the arranged poll consistent |
| `PostQueue.ServeKeeps` | src/post.rs:346-366 | every step of a serve keeps chains, flags, counts, tickets and the arranged poll consistent |
| `SlotPost.Server.ServeNow` | src/post.rs:236-251 | one walk collects exactly the producers whose counts moved; nothing while another serves |
| `SlotPost.BatchNames` | src/post.rs:185-192 | a batch names exactly the producers whose counts moved, once, in list order |
| `SlotPost.TicketsGrow` | src/post.rs:185-192 | over any number of serves, a producer's tickets strictly grow from any serve to any later one |
| `SlotPost.EveryPostToldOnce` | src/post.rs:236-251 | every post counted when a serve reached its slot is told of by exactly one ticket, of that serve or an earlier one |
| `FlagQueues.FlagHidesNothing` | src/resumable/common/deque.rs:32-49 | a non-empty queue with a false flag has a pusher between its push and its store of the flag |
| `FlagQueues.NothingLostOrDoubled` | src/resumable/common/external_queue.rs:127-153 | items pushed are those taken and those queued; deferred items leave in order whoever takes them |
| `FlagQueues.EveryItemComesOutOnce` | src/resumable/common/external_queue.rs:127-153 | what was given to a push is about to be pushed, queued, in a taker's hand, or was returned by one take |
| `FlagQueues.NewestIsTaken` | src/resumable/common/external_queue.rs:139-153 | a take from a last-in-first-out queue yields the item pushed last of those still there |
| `FlagQueues.QuietTakeFinds` | src/resumable/common/deque.rs:38-48 | with no pusher under way a take finds an item exactly if there is one |
| `FlagQueues.ThreadsNeverStuck` | src/resumable/common/deque.rs:32-49 | every pusher and taker can move, or waits for the lock of one that can |
| `FlagQueues.OperationsEnd` | src/resumable/common/deque.rs:32-49 | every push and take ends, whatever others do |
| `FlagQueues.FlagSparesTheLock` | src/resumable/common/deque.rs:38-48 | a take goes for the lock exactly if it sees the flag, and clears it exactly if it leaves the queue empty |
| `RunQueues.FlaggedQueue.TryTake` | src/resumable/common/deque.rs:38-48 | takes the oldest (deferred) or newest (external) item, exactly if there is one, and clears the flag exactly when empty |
| `RunQueues.HybridRunQueue.TryPop` | src/resumable/common/deque.rs:103-108 | the owner takes the newest pushed item, else the oldest deferred one |
| `RunQueues.HybridRunQueue.TrySteal` | src/resumable/common/deque.rs:132-141 | a thief takes the oldest deferred item, else the oldest pushed one; it is told to retry only when it lost a race for the latter, and then nothing has changed |
| `RunQueues.HybridRefinesSpin` | src/resumable/common/deque.rs:156-209 | the two-queue form answers as the single queue does, for every owner operation, and for steals while at most one item is deferred |
| `RunQueues.OwnerCannotTell` | src/resumable/common/deque.rs:51-118 | over any sequence of owner operations both give the same answers |
| `RunQueues.StealAgreesExactly` | src/resumable/common/deque.rs:132-141 | a steal answers and leaves the same on both exactly if the deferred items cannot be told apart |
| `Timers.OneEntry` | src/duty.rs:755-778 | ids are unique, and a waiting sleeper that has not fired has exactly one heap entry, for its time |
| `Timers.NeverEarlyNeverTwice` | src/duty.rs:707-724 | a sleeper fires at most once and never before its time |
| `Timers.ReadyOnlyInTime` | src/duty.rs:746-790 | a sleep answers Ready only once its length has passed since it was begun, and except on its first poll only after it fired |
| `Timers.FiredIsReady` | src/duty.rs:779-789 | a poll answers Ready exactly if it is the first, at or after its time, or the sleeper has fired by its look; a fired sleeper stays so |
| `Timers.NoWakerTwice` | src/duty.rs:713-737 | a waker is called at most once |
| `Timers.PassFiresAllDue` | src/duty.rs:713-724 | when a pass ends every registered, undropped sleeper due at its time has fired |
| `Timers.DeadlineCoversHeap` | src/duty.rs:725-730 | with no timer poll under way and the queue unlocked, the duty's deadline is no later than any entry |
| `Timers.PendingIsWoken` | src/duty.rs:779-789 | after a poll returned Pending the waker of that very poll is in the slot of an unfired timer, or was or is about to be invoked |
| `Timers.DutyNeverStuck` | src/duty.rs:707-737 | the timer poll can go on, or waits for the queue lock of a sleeper that can |
| `Timers.DutyEnds` | src/duty.rs:707-737 | a run of the timer duty ends, and so does every poll, whatever others do |
| `Timers.DeadlineIsUsedUp` | src/duty.rs:725-730 | unless a new sleeper lowers it, the deadline set after a run of the duty is the time of an entry still in the queue; an empty queue asks for nothing |
| `Timers.DropsEnd` | src/duty.rs:793-801 | dropping a sleeper gives up its waker and then its registration, and leaves its entry |
| `Timers.DroppedIsLeftAlone` | src/duty.rs:793-801 | a dropped sleeper whose waker was not collected before is never woken |
| `Timers.PollKeeps` | src/duty.rs:755-790 | every step of a sleeper's poll keeps entries, slots, wakers and the deadline consistent |
| `Timers.MoveKeeps` | src/duty.rs:707-737 | every step of the timer poll keeps entries, slots, wakers and the deadline consistent |
| `TimerPass.TimerQueue.Add` | src/duty.rs:755-778 | registering adds one entry and one unfired slot with the waker, and keeps every registered id paired with its entry |
| `TimerPass.TimerQueue.Remove` | src/duty.rs:793-801 | dropping a sleeper gives up waker and registration and leaves its entry to fire harmlessly |
| `TimerPass.TimerQueue.Fire` | src/duty.rs:707-737 | the loop leaves exactly the later entries, fires exactly the registered due sleepers and returns each one's waker once |
| `TimerPass.PoppedOne` | src/duty.rs:713-724 | one turn of the loop fires the popped entry's sleeper, if registered, and touches no other |
| `Layout.AlignDownIsGreatest` | src/resumable/common/thread.rs:25-27 | for powers of two the bit mask yields the greatest multiple not above the address |
| `Layout.SlotsFit` | src/resumable/stackless/thread.rs:218-234 | in the storage asked for, result and future are aligned, disjoint and inside, whatever the top; the polling side computes the same addresses from the same top |
| `Layout.StackBelowSlots` | src/resumable/stackful/thread.rs:41-66 | a task's execution stack begins 16-byte aligned below its closure |

## Left out

- Weak memory orders, fences and pointer validity: steps interleave sequentially consistently.
- Form: the lock-free protocols (`ForkJoin`, `Idle`, `AsyncTasks`, `JoinProtocol`, `Switching`, `PostQueue`, `FlagQueues`, `Timers`) are step functions on values instead of methods on shared objects, because every access of one thread may interleave with every access of another. Where the source has an object with cells, a class beside the state machine (`ScopedTask`, `StackfulWorker`, `WakeWord`, `RunQueues`, `TimerPass`) shows its operations in place, one at a time.
- Assembly context switches, OS threads, futex and condition-variable internals, `mmap`, thread-local lookup, clocks and environment reading: abstract tokens, steps or parameters.
- The crossbeam deque's inside: an owner end, thieves taking the oldest item, and a steal that may ask to retry.
- `Idle.NoLostWakeup`: states the promise for runs in which no comparison of the epoch was deceived; the converse (that a deceived comparison always loses a wakeup) is false, since the worker may wake for other reasons or others may be awake. Which comparisons are deceived is exact.
- Idle: running duties, timed parks (a timed return is a step that may happen at any time), and the durations by which a searcher decides to stop (any moment).
- "Someone keeps looking while there is work" for `SearchIdle`: a worker woken from a park is not counted as a searcher, so it is not claimed; that the last searcher wakes another worker is `IdleWork.LastSearcherWakes`.
- Scoped engine: panics of user closures, shutdown joins of OS threads, and the async scoped engine.
- Polled tasks: the `EVER_SHARED` hint, `yield_now` (which only chooses the queue end), panics of futures, and the reuse of descriptors: a handle polled by a task is assumed to be consumed or dropped before that task's descriptor is freed.
- The boxed waker a `block_on` registers: in `AsyncTasks` its wake is a waking thread's, which may come at any moment; that it is woken when the child finishes is `JoinProtocol.PendingPollIsAnswered`. A `block_on` called inside a poll is not modelled.
- The documentation of `cond_suspend_to_sched` (src/resumable/stackful/worker.rs:120-121) says a cancelled suspension returns the picked task to its source; the code pushes any task but the root on the own queue, also a stolen or external one, and so does `StackfulWorker.UltWorker.CondSuspendToSched`.
- `ScopedTask.RunBranch`: one thread's sequential view of a branch, with the closure call being its value; who runs it when, beside others, is in `ForkJoin`.
- `AsyncTasks.FinishedChildRevivesParent`: speaks of async joiners; a boxed waker registered by a foreign executor is only some other waiter there; its box is accounted for in `JoinProtocol`.
- Return pool: each operation is atomic, which its locks and its single-owner lists give up to the order of remote pushes; payload reinitialisation; `SimplePool`, which keeps plain vectors; and the type-erased `BlockPool`, which uses the same list code.
- Post delegators: the wrap of 64-bit counts, the consumer's own work, the times of deadlines (only whether one is set), and the list of all producers, which only grows.
- Timers: wakes invoked after a `Sleep` was dropped between the collection of its waker and the call are not excluded.
- Duties other than the two delegators' and the timers': periods, backing off, the keeper's plan.
- `SweepSteal` over a wrapping start; a search looks at every queue.
- Mutex, condition variable, barrier and delegated locks built on these protocols.
