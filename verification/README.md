# A verified model of the yaay runtime

yaay is a multi-threaded async runtime: workers with intrusive, mutex-protected task queues that steal from each other and
park when nothing is left (`yaay-mt-runtime`), and reactor threads that turn readiness events of `mio` into wakes
(`yaay-mio`). Its correctness rests on hand-written protocols over atomics and raw pointers. This project states those
protocols in Dafny and proves what the runtime relies on, for every number of workers and threads and for every run.

## How it is built

The concurrent protocols are state machines. An atomic operation or a lock section is one step of one thread, under
sequential consistency; `Enabled` says when a step can be taken, `Next` what it does, `IsRun` which states a sequence of
steps of arbitrary threads goes through, and `Reachable` which states runs reach. Fields that only record history (the
unbounded number of epoch bumps, a task's place, counts of polls, drops and frees, whether somebody has called
`shutdown_async`, the dispatchers notified in a batch) decide nothing, with one exception: the time limit of `Park` is stated
on the number of bumps.

| module | subject |
|---|---|
| `EpochWord` | the packed status word, and `Epoch` as a class |
| `Parking`, `ParkingInvariant`, `ParkingTheorems`, `ParkingOperations`, `ParkingChecks`, `ParkingRuns` | `main_loop` over `Epoch`, with stealing, spawning, shutdown and outside producers |
| `TaskLife`, `TaskLifeInvariant`, `TaskLifeTheorems`, `TaskLifeOperations` | status bits, reference counts and queue membership of tasks |
| `Readiness`, `ReadinessInvariant`, `ReadinessOperations` | the dispatcher's handshake, `io_poll!` and the reactors' lock, running on top of `TaskLife` |
| `System`, `SystemInvariant`, `SystemTheorems`, `SystemRuns` | `Parking`, `Readiness` and the reactors' event loops as one machine that shares its threads and queues |
| `Reactor`, `ReactorTheorems` | slab slots, dispatcher pointers, event batches and deferred removal of keys |
| `Startup`, `StartupTheorems` | the two-phase start-up barrier |
| `Rng` | the xorshift generator and the indices drawn from it |
| `TaskList`, `Batching`, `Teardown`, `Worker` | the heap code: intrusive lists, batched wakes, draining at teardown, a worker's queue operations |

The state machines share one proof shape. A step is computed as a small record (a `Move`, an `Effect`); one lemma shows
that the record of every action obeys a few laws; separate lemmas show that a step which obeys the laws keeps each part of
the invariant. The theorems follow from the invariant. The `Operations` modules say, of the states before and after a step or
a run, what each operation is for: which task goes where, who goes on with it, and when a worker leaves.

The heap code is imperative Dafny. `TaskList.Valid()` has a frame that leaves out the last node's `next` field: the source
never clears it, so nothing may depend on it. `Task.freed` makes every access to freed memory a verification error.

## Where the code and its comments differ

The model follows the code.

- The documented worker algorithm looks into its own queue after every unsuccessful round
  (`yaay-mt-runtime/src/epoch.rs:93-94`); the code does so only if the epoch number it reads is larger than the one it had
  (`yaay-mt-runtime/src/worker.rs:142`). Lemma C of `epoch.rs` (every worker eventually checks its queue after
  `next_epoch`) is therefore false: `OwnQueueMayNeverBeChecked` gives the run. `ParkingChecks` gives the exact condition: an
  inactive worker whose status is older than the bump looks within `8 * n + 3` steps of its own, and one whose status is as
  new as the bump does not look; an active worker looks before it becomes inactive; so a bump is missed exactly by workers
  between their empty pop and `set_inactive`. Lemma D (no deadlock) is still true, because of the recheck at
  `yaay-mt-runtime/src/worker.rs:133`.
- A worker that shuts down returns without `set_inactive`; the active count keeps counting it. `SleeperBesideLeaver` and
  `ShutdownLeavesNoSleeper` show what that means for the others.
- A matching status word means an unchanged epoch only if fewer than 2^23 bumps happened since the time stamp was taken.
  The code relies on its 1000 microsecond limit for that; the model makes it the guard of the `Park` step.
- `WorkerGuard::drop` tests `rc != 1` only after `drop_in_place`, because a future's destructor drops the wakers it owns, its
  own task's among them. `Teardown` carries that ledger: the warning is given exactly for tasks that the loop does not free.
- `next_seed` shifts left three times, where xorshift shifts left, right and left. It has period eight and never changes
  the low five bits, so with 2, 3, 5, 9, 17 or 33 workers, and no other number, a thief looks at one victim forever
  (`ThiefNeverChangesVictimIff`).

## Model

| member | source | states |
|---|---|---|
| `SystemInvariant.RunsProject` | yaay-mt-runtime/src/worker.rs:105-171 | every run of the whole system is a run of the parking protocol and a run of tasks, futures and reactors; in every state the two agree on every queue, job by task, on what every worker is doing with which kind of task, and on every reactor's place in its loop |
| `SystemInvariant.StepKeepsCoupling` | yaay-mt-runtime/src/worker.rs:105-190 | every step keeps that agreement: each push and pop is seen by both sides, a worker holds a task exactly where `main_loop` says so, a reactor leaves no task behind in a batch list it has passed, and a shutdown future is never woken |
| `SystemInvariant.ParkReachesPushed` | yaay-mt-runtime/src/batch.rs:22-32 | one lock section of `push_batch` is a run of single pushes of the parking protocol |
| `SystemTheorems.PollingReactorHasNoTask` | yaay-mio/src/shared.rs:98-121 | in every run, whatever workers and other threads do meanwhile, a reactor that is in `poll` has no task in any batch list |
| `SystemRuns.PushBatchRuns` | yaay-mt-runtime/src/batch.rs:18-33 | `push_batch` completes: in every reachable state where a reactor begins it, its own steps lead back to where it was called, with all its batch lists empty and its bump done |
| `SystemRuns.PushBatchBegins` | yaay-mio/src/shared.rs:102-114 | a reactor begins it before a 128th event, to go on with the batch, and when it drops its lock, to go back to `poll` |
| `SystemTheorems.NobodySleepsOnAWake` | yaay-mt-runtime/src/epoch.rs:103-107 | end to end: when all workers are parked, every reactor is in `poll` and no other outside thread is inside an operation, every live task is idle with status 0 and was polled after its last wake |
| `SystemTheorems.NobodySleepsOnAnEvent` | yaay-mio/src/dispatcher.rs:57-115 | end to end: in the same states, every dispatcher that some future waits on in `wait_io` has had no event since `prepare_io`, and its status is 0 |
| `SystemTheorems.WorkersAreNeverStuck` | yaay-mt-runtime/src/worker.rs:105-155 | a worker that is not parked and has not left always has an enabled step of the whole system, inside a future's poll, too |
| `SystemTheorems.WokenTaskMeansSomeWorkerGoesOn` | yaay-mt-runtime/src/task.rs:109-135 | while a live task has an unanswered wake, every reactor is in `poll` and no other outside thread is inside an operation, some worker can take a step; the only exception is that somebody has called `shutdown_async` and all workers have left with their shutdown flags set |
| `SystemTheorems.ShutdownReachesEveryWorker` | yaay-mt-runtime/src/runtime.rs:48-56 | after `shutdown_async`, in every run, every worker is flagged, or a task with a shutdown future is in its own queue, or some worker has such a task in hand whose poll will still reach it |
| `ParkingInvariant.MoveIsLawful` | yaay-mt-runtime/src/worker.rs:105-155 | every operation of every thread changes the count exactly with its own activity, keeps indices in range, owes a bump from a push to another's queue until it bumps, owes an unpark from a change of an idle word until it unparks, and commits to waiting only with an empty queue and an unchanged word |
| `ParkingInvariant.StepKeepsInv` | yaay-mt-runtime/src/worker.rs:105-214 | every step of workers, producers and shutdown keeps the whole parking invariant |
| `ParkingInvariant.ReachableHasInv` | yaay-mt-runtime/src/worker.rs:105-214 | the invariant holds after every run from start-up, for 1 to 511 workers and any number of outside threads |
| `ParkingInvariant.QueuesKept` | yaay-mt-runtime/src/worker.rs:133-137 | a worker that found its queue empty and goes to wait, with a job in that queue, has a bump behind or ahead of it: kept by every lawful step |
| `ParkingInvariant.WakesKept` | yaay-mt-runtime/src/epoch.rs:193-219 | a parked worker with active workers beside it has an activator about to unpark, and with a bump behind it someone about to unpark: kept by every lawful step |
| `ParkingInvariant.CoverageKept` | yaay-mt-runtime/src/worker.rs:175-214 | a worker that shutdown will reach stays so whatever is stolen, polled, pushed or popped |
| `ParkingTheorems.CountIsCardinality` | yaay-mt-runtime/src/epoch.rs:72-76 | the recursive count used in the invariant is the size of the set of active workers |
| `ParkingTheorems.WordRefinesPair` | yaay-mt-runtime/src/epoch.rs:160-233 | in every reachable state the low 9 bits are the number of active or exited workers, and the high 23 bits the number of bumps modulo 2^23 |
| `ParkingTheorems.WordNeverCarries` | yaay-mt-runtime/src/epoch.rs:193-204 | in every run `set_active` adds and `set_inactive` subtracts one without carry, borrow or overflow, and neither changes the epoch |
| `ParkingTheorems.OutdatedSleeperIsOwedAWake` | yaay-mt-runtime/src/epoch.rs:109-124 | Lemmas A and B: a worker parked on a word that is no longer current has a thread between `fetch_add` and `unpark_all`; with active workers, it is a `set_active` that moved the count from 0 to 1 |
| `ParkingTheorems.ParkedQueueIsEmpty` | yaay-mt-runtime/src/worker.rs:133-137 | if nobody owes a `next_epoch` or an `unpark_all`, each parked worker's own queue is empty |
| `ParkingTheorems.AllParkedMeansAllEmpty` | yaay-mt-runtime/src/epoch.rs:134-143 | Lemma D: when all workers are parked and no producer is inside an operation, all queues are empty and the active count is 0 |
| `ParkingTheorems.OnlyParkingBlocks` | yaay-mt-runtime/src/worker.rs:105-155 | a worker that is neither parked nor gone can always take its next step; the steal branch always has a victim |
| `ParkingTheorems.SleeperBesideLeaver` | yaay-mt-runtime/src/worker.rs:112-153 | beside a worker that has left, still counted active, a parked worker always has a third worker about to unpark it |
| `ParkingTheorems.QueuedJobMeansSomeWorkerGoesOn` | yaay-mt-runtime/src/epoch.rs:142-143 | deadlock freedom: with a job in any queue and all producers outside operations, some worker has an enabled step; the only exception is that somebody has called `shutdown_async` and all workers have left with their shutdown flags set |
| `ParkingTheorems.NobodyLeavesUncalled` | yaay-mt-runtime/src/worker.rs:112-153 | in every run, a worker that has left has its shutdown flag set; and as long as nobody has called `shutdown_async`, no worker has left, no flag is set and no shutdown job is in any queue |
| `ParkingTheorems.CalledMeansAnnounced` | yaay-mt-runtime/src/runtime.rs:48-56 | what `called` says: a thread has begun `shutdown_async` in this run, and nothing else sets it |
| `ParkingTheorems.TestDecides` | yaay-mt-runtime/src/worker.rs:112-112 | behind a polled job a worker leaves exactly when its own flag is set, and otherwise goes back to its queue |
| `ParkingTheorems.ShutdownIsNeverLost` | yaay-mt-runtime/src/runtime.rs:48-56 | after `shutdown_async` pushed its jobs, every worker is flagged, has a shutdown job in its own queue, or is still to be reached by one that some worker holds, under arbitrary stealing |
| `ParkingTheorems.ShutdownLeavesNoSleeper` | yaay-mt-runtime/src/worker.rs:197-214 | after shutdown is requested, a state where every worker is parked or gone and producers are quiet has all workers gone |
| `ParkingTheorems.StealingNeedsTwoWorkers` | yaay-mt-runtime/src/worker.rs:122-177 | a worker in the steal branch has at least one other worker, so the modulus `n_workers - 1` is never zero |
| `ParkingTheorems.QueueIndicesAreInRange` | yaay-mt-runtime/src/worker.rs:84-93 | every queue that any step of any run pushes to or pops from exists, though the source indexes unchecked |
| `ParkingTheorems.RefreshChecksOwnQueueIff` | yaay-mt-runtime/src/worker.rs:140-149 | one refresh looks into the worker's own queue if and only if the bumps modulo 2^23 exceed those of its old status |
| `ParkingTheorems.OwnQueueMayNeverBeChecked` | yaay-mt-runtime/src/epoch.rs:126-132 | Lemma C fails: a reachable state with a job in worker 0's queue and nothing owed, and a pass of its inner loop back to the same state without a look into that queue |
| `ParkingOperations.LookingTakesTheFront` | yaay-mt-runtime/src/worker.rs:108-148 | in all three places where a worker looks into its own queue, in every run, it takes the front job and goes on with exactly that job if there is one, and takes nothing only if the queue is empty |
| `ParkingOperations.PeekingDecides` | yaay-mt-runtime/src/worker.rs:176-184 | a thief that sees a nonempty queue goes on to pop that victim, another existing worker; one that sees none counts a miss, and refreshes its status after the last |
| `ParkingOperations.StealingTakesTheFront` | yaay-mt-runtime/src/worker.rs:183-189 | it then takes the front job of that victim and goes on with it, unless the queue has become empty |
| `ParkingOperations.PushingLands` | yaay-mt-runtime/src/worker.rs:76-94 | every push adds exactly one job to exactly one queue: spawned and outside jobs at the back, deferred and shutdown jobs in front |
| `ParkingOperations.RunningMayPush` | yaay-mt-runtime/src/worker.rs:76-96 | in every reachable state, a future in its poll can spawn at every index and defer, an outside thread can push to every queue, and both can begin `shutdown_async` |
| `ParkingOperations.OthersLeaveQueues` | yaay-mt-runtime/src/worker.rs:105-155 | no other operation than the pushes and pops touches a queue |
| `ParkingOperations.JobsAreConserved` | yaay-mt-runtime/src/worker.rs:105-155 | in every run, the jobs pushed are those queued, those in the hands of workers, and those that workers came back from: none is lost or doubled |
| `ParkingOperations.HandStays` | yaay-mt-runtime/src/worker.rs:121-152 | a job in hand stays the same job, through activation and polling, until the worker comes back from it |
| `ParkingOperations.WakesIffNobodyIsActive` | yaay-mt-runtime/src/epoch.rs:193-219 | `next_epoch` and `set_active` go on to wake all sleepers exactly when they found the active count at 0 |
| `ParkingOperations.UnparkingWakesAllSleepers` | yaay-mt-runtime/src/epoch.rs:257-260 | `unpark_all` sends every parked worker to refresh its status, and touches no other |
| `ParkingOperations.StatusDecides` | yaay-mt-runtime/src/worker.rs:119-137 | a worker goes on with the status it has just read, stealing `4 * n` times if it counts active workers and preparing to park if not |
| `ParkingOperations.ParkingIsOnCurrentStatus` | yaay-mt-runtime/src/epoch.rs:209-253 | a worker parks only on a status that is still the current word, and goes on to refresh it otherwise |
| `ParkingOperations.ThiefMakesAllAttempts` | yaay-mt-runtime/src/worker.rs:123-130 | in every run, a thief without success makes exactly its `4 * n` attempts before it refreshes its status |
| `ParkingChecks.OutdatedWorkerLooksSoon` | yaay-mt-runtime/src/epoch.rs:126-132 | Lemma C where it holds: in every run within one block of 2^23 bumps, an inactive worker whose status is older than the last bump sees its own queue empty, or takes the front job of a queue and goes on with it, within 8n+3 steps of its own |
| `ParkingChecks.NewerStatusMeansItLooked` | yaay-mt-runtime/src/worker.rs:140-149 | in every such run, an inactive worker stands in its loop with a newer status than it had only if it has seen its own queue empty or taken the front job of a queue |
| `ParkingChecks.CurrentWorkerDoesNotLook` | yaay-mt-runtime/src/worker.rs:121-150 | the converse: in every run without another bump, an inactive worker whose status is current does not look into its own queue until it takes a job or reads an active count of 0 |
| `ParkingChecks.BumpOutdatesSnapshots` | yaay-mt-runtime/src/epoch.rs:216-219 | a bump puts the status of every inactive worker out of date |
| `ParkingChecks.DeactivationMissesBumps` | yaay-mt-runtime/src/worker.rs:119-120 | a worker that deactivates takes a current status, and so misses all bumps since its empty pop |
| `ParkingChecks.ActiveWorkerLooksFirst` | yaay-mt-runtime/src/worker.rs:106-120 | in every run, an active worker that is not past its empty pop does not come to `set_inactive` without looking into its own queue |
| `ParkingRuns.ShutdownPollRuns` | yaay-mt-runtime/src/worker.rs:200-213 | a whole `Shutdown::poll`: the own flag is set, every other worker that is not flagged has a shutdown job in front of its queue, nothing else changes, and the bump comes next |
| `ParkingRuns.ToldAt` | yaay-mt-runtime/src/worker.rs:203-210 | queue by queue, what that loop leaves behind |
| `ParkingRuns.ShutdownAsyncRuns` | yaay-mt-runtime/src/runtime.rs:48-56 | a whole `shutdown_async`: every queue has a shutdown job in front, and the bump comes next |
| `ParkingRuns.RequestCompletes` | yaay-mt-runtime/src/runtime.rs:48-56 | in every run, whoever interferes, a thread in `shutdown_async` has told every worker after one step of its own for each |
| `ParkingRuns.IdleWorkerFallsAsleep` | yaay-mt-runtime/src/worker.rs:107-137 | the last active worker, with an empty queue, parks in six steps of its own on the word it left |
| `ParkingRuns.SleeperWakesForItsTask` | yaay-mt-runtime/src/worker.rs:133-153 | a job pushed to the queue of a parked worker, with nobody active, wakes it with the bump that follows; it takes that job and polls it as an active worker |
| `EpochWord.MaskAndShift` | yaay-mt-runtime/src/epoch.rs:160-165 | the mask and the shift of the source are the remainder and quotient used in the model |
| `EpochWord.PackReads` | yaay-mt-runtime/src/epoch.rs:224-233 | both counters are read back from the packed word |
| `EpochWord.PackIncrement` | yaay-mt-runtime/src/epoch.rs:193-197 | the wrapping addition of one is exact and increments the count alone |
| `EpochWord.PackDecrement` | yaay-mt-runtime/src/epoch.rs:202-204 | the wrapping subtraction of one is exact and decrements the count alone |
| `EpochWord.PackBump` | yaay-mt-runtime/src/epoch.rs:216-219 | the wrapping addition of `EPOCH` is one bump, also where the epoch overflows |
| `EpochWord.EqualWordsWithinWindow` | yaay-mt-runtime/src/epoch.rs:145-150 | equal words fewer than 2^23 bumps apart are zero bumps apart |
| `EpochWord.Epoch.constructor` | yaay-mt-runtime/src/epoch.rs:174-177 | all threads active, no bump, nobody parked |
| `EpochWord.Epoch.SetActive` | yaay-mt-runtime/src/epoch.rs:193-197 | one more active thread; the parking lot is emptied exactly when there was none; the returned status is the new word |
| `EpochWord.Epoch.SetInactive` | yaay-mt-runtime/src/epoch.rs:202-204 | one active thread less; the returned status is the new word |
| `EpochWord.Epoch.NextEpoch` | yaay-mt-runtime/src/epoch.rs:216-219 | one more bump; the parking lot is emptied exactly when nobody is active |
| `EpochWord.Epoch.WaitNextEpoch` | yaay-mt-runtime/src/epoch.rs:209-253 | the thread parks exactly when the status is current and young enough and the weak compare-exchange does not fail for no reason, and nothing else changes |
| `EpochWord.Epoch.WakeAllSlow` | yaay-mt-runtime/src/epoch.rs:257-260 | nobody stays parked |
| `TaskLifeInvariant.EffectIsLawful` | yaay-mt-runtime/src/task.rs:93-192 | every operation leaves its own task sound and keeps true what other threads know about that task: its place in their hands, their wakers, its freed memory |
| `TaskLifeInvariant.StepKeepsInv` | yaay-mt-runtime/src/task.rs:93-192 | every step of workers, wakers, clones, drops and batch flushes keeps the whole task invariant |
| `TaskLifeInvariant.ReachableHasInv` | yaay-mt-runtime/src/task.rs:93-192 | it holds after every run, for any number of workers, threads, wakers and tasks |
| `TaskLifeTheorems.TaskIsInOnePlace` | yaay-mt-runtime/src/task.rs:16-18 | a task occurs at most once in all queues and batch lists together, is in at most one thread's hands, and never both |
| `TaskLifeTheorems.LiveTaskIsSomewhere` | yaay-mt-runtime/src/task.rs:113-182 | an undropped task is in a list, in a thread's hands, or idle with status 0, and the last excludes the others |
| `TaskLifeTheorems.PollingIsExclusive` | yaay-mt-runtime/src/task.rs:138-183 | two threads inside the same future's poll are the same thread |
| `TaskLifeTheorems.StatusIsLegal` | yaay-mt-runtime/src/task.rs:113-171 | `!MUTED & NOTIFIED & !DROPPED` is unreachable, and the compare-exchange loop only ever expects MUTED, with or without NOTIFIED, which the source only asserts in comments |
| `TaskLifeTheorems.WorkerIdIsInRange` | yaay-mt-runtime/src/task.rs:122-133 | the unchecked `worker_id` of every task names an existing queue and an existing batch list in every run |
| `TaskLifeTheorems.WokenTaskIsNotIdle` | yaay-mt-runtime/src/task.rs:113-183 | a live task woken since its last poll began is queued or held, and NOTIFIED unless its poll is about to be called |
| `TaskLifeTheorems.HistoryGrows` | yaay-mt-runtime/src/task.rs:113-183 | along every run no task disappears, and polls and wakes are only added |
| `TaskLifeTheorems.WakeIsAnswered` | yaay-mt-runtime/src/task.rs:19-19 | after a `wake` of a live task, in every run, whenever the task is idle again its future has been polled again |
| `TaskLifeTheorems.ReferenceCountIsExact` | yaay-mt-runtime/src/task.rs:93-107 | `rc` is the number of waker clones plus one until the runtime's release; one drop, one free, the free after the drop with no reference left, and no leak |
| `TaskLifeTheorems.NothingFreedIsTouched` | yaay-mt-runtime/src/task_waker.rs:13-48 | no step of any run reads or writes freed memory: neither its own task's nor that of the list tail it links to |
| `TaskLifeOperations.PollsAreEarned` | yaay-mt-runtime/src/task.rs:139-180 | in every run, a future is called once for its creation and at most once for each `wake` of it; a call that is still due counts, so NOTIFIED is cleared by each call that answers it |
| `TaskLifeOperations.UnwokenTaskGoesIdle` | yaay-mt-runtime/src/task.rs:151-170 | the converse of the wake theorems: in every run, a future that nobody wakes from a moment of its poll on at which NOTIFIED is clear is not polled again, and after one compare-exchange by the poller that does not fail for no reason the task is idle with status 0, and stays so until it is woken |
| `TaskLifeOperations.PoppedTaskIsPolled` | yaay-mt-runtime/src/task.rs:139-150 | in every run, a popped task stays in its worker's hands until its future has been called |
| `TaskLifeOperations.ReadyIsTheEnd` | yaay-mt-runtime/src/task.rs:171-179 | in every run, after `Ready` a future is never called again, and its worker lets go of the task only with the future dropped and the runtime's reference released |
| `TaskLifeOperations.EndedWakerGoes` | yaay-mt-runtime/src/task_waker.rs:18-32 | in every run, `drop` and `wake` by value are busy with their waker until it is gone |
| `TaskLifeOperations.UnusedWakerCanBeUsed` | yaay-mt-runtime/src/task_waker.rs:13-32 | a waker that nobody uses can be woken by reference and by value, cloned and dropped |
| `TaskLifeOperations.ReferencesAreCounted` | yaay-mt-runtime/src/task.rs:93-107 | in every run, `rc` is the number of creations and clones less the number of drops and releases |
| `TaskLifeOperations.WorkerIdIsLastThief` | yaay-mt-runtime/src/worker.rs:185-189 | in every run, `worker_id` is the worker that last stole the task, and 0 if none did |
| `TaskLifeOperations.FirstWakeSchedules` | yaay-mt-runtime/src/task.rs:113-121 | a wake schedules its task exactly when it found status 0, and leaves MUTED and NOTIFIED set |
| `TaskLifeOperations.TaskListAfter` | yaay-mt-runtime/src/task.rs:122-133 | list by list, what each operation does: pops take the front, spawns and wakes go to the back, deferred tasks in front, and every other list stays |
| `TaskLifeOperations.WakeGoesToLastThief` | yaay-mt-runtime/src/task.rs:122-135 | in every run, a scheduled task goes to the back of the queue of the worker that last stole it, or, on a reactor, of the batch list for that worker, and no other list changes |
| `ReadinessInvariant.StepKeepsInv` | yaay-mio/src/dispatcher.rs:30-116 | every step of the runtime, of futures in `io_poll!` on any number of dispatchers, of registration and `del`, and of reactors under their locks keeps the two-layer invariant |
| `ReadinessInvariant.ReachableHasInv` | yaay-mio/src/dispatcher.rs:30-133 | it holds after every run |
| `ReadinessInvariant.NeverBroken` | yaay-mio/src/dispatcher.rs:30-44 | in no run is the waker behind a dispatcher's raw pointer used after its end, or ended by `del` while a reactor uses it; the waker of every dispatcher that is not freed exists, and nobody is ending it |
| `ReadinessInvariant.OwedWakeCanBeMade` | yaay-mio/src/dispatcher.rs:110-115 | a reactor that swapped a 0 out of a status still holds its lock, the dispatcher is still linked, and its waker exists and is not being dropped, so `wake_by_ref` can be called |
| `ReadinessInvariant.DroppedWakerIsUnused` | yaay-mio/src/dispatcher.rs:41-43 | when `del` drops a dispatcher behind its lock section, no thread is inside an operation on the waker in it |
| `ReadinessInvariant.IdleTaskMissedNothing` | yaay-mio/src/dispatcher.rs:57-115 | no lost readiness: if a task that is suspended in `wait_io`, on one or on several dispatchers, is idle, then each of them has status 0 and no event since `prepare_io`, or a thread owes the task a wake |
| `ReadinessInvariant.WaitSuspendsIffNoEvent` | yaay-mio/src/dispatcher.rs:57-72 | `wait_io` suspends if and only if no event came since `prepare_io`; otherwise the loop retries |
| `ReadinessInvariant.EventStays` | yaay-mio/src/dispatcher.rs:47-49 | along every run a recorded event is forgotten only by the next `prepare_io` |
| `ReadinessInvariant.NotifiedIoIsRetried` | yaay-mio/src/macros.rs:4-18 | after a `notify`, in every run, a task that is suspended on that dispatcher, idle and owed no wake has tried its I/O again |
| `ReadinessOperations.StatusTellsOfEvents` | yaay-mio/src/dispatcher.rs:105-115 | in every run, the status byte is 0, 1 or 3; it is 3 exactly if an event came since the last `prepare_io`, and 0 only after one |
| `ReadinessOperations.NotifyOwesIffWaiting` | yaay-mio/src/dispatcher.rs:110-115 | `notify` records the event and leaves the reactor with a wake to make exactly if the status was 0, that is, if the future has gone to wait and no event came since |
| `ReadinessOperations.EventWakesWaitingTask` | yaay-mio/src/dispatcher.rs:110-115 | in every reachable state where a task waits, the reactor's four steps after an event are a run, and put the task behind the list for its worker |
| `ReadinessOperations.SuccessLeaves` | yaay-mio/src/macros.rs:4-18 | `io_poll!` with I/O that does not block leaves after one try |
| `ReadinessOperations.BlockingWaits` | yaay-mio/src/macros.rs:4-18 | with I/O that would block, and no event, it waits with status 0 |
| `ReadinessOperations.PollRetries` | yaay-mio/src/macros.rs:4-18 | in every reachable state, the next call of a future that waits leads to another `prepare_io` |
| `ReadinessOperations.FutureCanFinish` | yaay-mio/src/dispatcher.rs:57-72 | in every state of the invariant, a future in its poll can give up all its waits, with one step each, and then return `Ready` |
| `ReadinessOperations.NewDispatcherCanBeUsed` | yaay-mio/src/dispatcher.rs:25-28 | a new dispatcher, with the status `MUTED` and a clone of the waker of the task that is polled, is linked, and can be used in `io_poll!` |
| `ReadinessOperations.UnlinkedCanBeFreed` | yaay-mio/src/dispatcher.rs:30-44 | a linked dispatcher that is not in use can be unlinked, and then its memory be dropped |
| `ReadinessOperations.FreeingDropsTheWaker` | yaay-mio/src/dispatcher.rs:41-43 | `del` goes on with the drop of the dispatcher's waker, which nobody uses |
| `ReactorTheorems.DeletedFindsItself` | yaay-mio/src/dispatcher.rs:30-44 | `del` clears exactly the pointer of its own side; its `unreachable!()` is unreachable |
| `ReactorTheorems.StepKeepsInv` | yaay-mio/src/shared.rs:98-129 | every step of registration, deletion, dropping and the event loop keeps the slot invariant |
| `ReactorTheorems.ReachableHasInv` | yaay-mio/src/shared.rs:98-129 | it holds after every interleaving |
| `ReactorTheorems.NeverBroken` | yaay-mio/src/shared.rs:100-121 | in no run is a vacant slot indexed, a freed dispatcher notified, an occupied pointer overwritten, an assertion of `MIOCell::drop` violated, or a vacant key removed |
| `ReactorTheorems.EventsReachTheirRegistration` | yaay-mio/src/shared.rs:100-113 | every event of the batch in flight names an occupied slot of the registration that produced it, with pointers that are null or live; that it is delivered is `EveryEventIsDelivered` |
| `ReactorTheorems.EveryEventIsDelivered` | yaay-mio/src/shared.rs:99-114 | in every run, when the reactor drops its lock it has notified exactly the dispatchers that the events it got from the poll are for, event by event in their order, the readable before the writable side, each once |
| `ReactorTheorems.NotifiedIffReady` | yaay-mio/src/shared.rs:101-112 | said of registrations: a dispatcher has been notified exactly if one of the events gone through came for its registration and side while it was linked |
| `ReactorTheorems.SlotsAreLocked` | yaay-mio/src/shared.rs:100-113 | while the reactor delivers, no other operation changes a slot, the batch or its place in it |
| `ReactorTheorems.PointersBelongToTheirSlot` | yaay-mio/src/dispatcher.rs:76-95 | a non-null slot pointer names an unfreed dispatcher of the same registration and side |
| `ReactorTheorems.KeysAreRemovedOnce` | yaay-mio/src/container.rs:39-53 | each registration's key is removed at most once and exactly in its last phase, stays queued until then, and no two unremoved registrations share a key; that it is removed is `DrainLeavesNothing` |
| `ReactorTheorems.DrainLeavesNothing` | yaay-mio/src/shared.rs:115-121 | in every run, the reactor goes back to `poll` exactly when no deferred key is left, and then every cell that was retired is removed; while there is one, it goes on with the last |
| `ReactorTheorems.RemovingFreesTheSlot` | yaay-mio/src/shared.rs:115-121 | the key removed is that of a retired cell, whose slot is vacant afterwards |
| `ReactorTheorems.NoDispatcherLeaks` | yaay-mio/src/dispatcher.rs:30-44 | in every run, a dispatcher that is not freed belongs to an `MIO` that still has it |
| `ReactorTheorems.OpenRuns` | yaay-mio/src/container.rs:57-65 | registration: a vacant slot holds two null pointers, and the source is registered with its key |
| `ReactorTheorems.NewRuns` | yaay-mio/src/dispatcher.rs:76-99 | in every reachable state, `new` on a registered cell puts the new dispatcher behind the pointer of its side, without an assertion failing |
| `ReactorTheorems.DelRuns` | yaay-mio/src/dispatcher.rs:30-44 | in every reachable state, `del` clears the pointer of its side, frees the dispatcher, and leaves the side free for another |
| `ReactorTheorems.CloseRuns` | yaay-mio/src/container.rs:40-53 | in every reachable state, a dropped cell passes both assertions and its key, and nothing else, is added to the keys to remove |
| `ReactorTheorems.DroppedCellHasNoPointers` | yaay-mio/src/container.rs:45-52 | both pointers are null from the cell's deregistration on |
| `StartupTheorems.StepKeepsInv` | yaay-mt-runtime/src/worker_manager.rs:98-136 | every lock section of the barrier keeps its invariant, including that no waiter misses its notification |
| `StartupTheorems.ReachableHasInv` | yaay-mt-runtime/src/worker_manager.rs:80-136 | it holds after every interleaving, spurious wake-ups included |
| `StartupTheorems.OthersAreTheOthers` | yaay-mt-runtime/src/worker_manager.rs:116-120 | the collected `other_workers` are the other n-1 workers, in order, without the worker itself |
| `StartupTheorems.NobodyStartsEarly` | yaay-mt-runtime/src/worker_manager.rs:80-136 | when any worker has entered `main_loop` or `wait` has returned, every worker structure is written with exactly its other workers; when `wait` has returned, all workers, in order, are in the shared data; and no null pointer was unwrapped |
| `StartupTheorems.StartupNeverDeadlocks` | yaay-mt-runtime/src/worker_manager.rs:107-135 | if no thread can take a step, all are through |
| `StartupTheorems.RunsAreBounded` | yaay-mt-runtime/src/worker_manager.rs:98-136 | every step without a spurious wake-up uses up part of a rank that is finite in every state |
| `StartupTheorems.StartupIsBounded` | yaay-mt-runtime/src/worker_manager.rs:80-136 | such a run of n workers has at most 13(n+1) steps; with freedom from deadlock, start-up always completes |
| `Rng.NextSeedBits` | yaay-mt-runtime/src/rng.rs:8-13 | every bit of the next seed is the sum modulo 2 of the seed's bits at distances 0, 5, 13, 17, 18, 22 and 30 below it |
| `Rng.EightTimesIsIdentity` | yaay-mt-runtime/src/rng.rs:8-13 | eight applications of `next_seed` are the identity on every 32-bit word |
| `Rng.NextSeedIsBijective` | yaay-mt-runtime/src/rng.rs:8-13 | seven more applications invert it on both sides, so it is injective and surjective |
| `Rng.SeedsRepeatEveryEight` | yaay-mt-runtime/src/rng.rs:8-13 | seeds repeat with period eight from any point on |
| `Rng.LowFiveBitsAreFixed` | yaay-mt-runtime/src/rng.rs:8-13 | no number of applications changes the low five bits |
| `Rng.TargetsAreAtMostEight` | yaay-mt-runtime/src/worker.rs:84-85 | whatever the run, an index drawn is one of the first eight |
| `Rng.TargetIsConstantWhenModulusDivides32` | yaay-mt-runtime/src/worker.rs:176-187 | with a modulus that divides 32 all indices of a run are equal |
| `Rng.TargetIsConstantIff` | yaay-mt-runtime/src/worker.rs:176-187 | the moduli that make the index constant on every seed are exactly the divisors of 32 |
| `TaskList.TaskList.constructor` | yaay-mt-runtime/src/task_list.rs:24-26 | the new list holds nothing |
| `TaskList.TaskList.Single` | yaay-mt-runtime/src/task_list.rs:31-31 | a list of one task, whatever its `next` field holds |
| `TaskList.TaskList.PushBackBatch` | yaay-mt-runtime/src/task_list.rs:36-44 | concatenates behind; writes only the old tail's `next`, and no freed node |
| `TaskList.TaskList.PushBack` | yaay-mt-runtime/src/task_list.rs:30-32 | appends one task |
| `TaskList.TaskList.PushFrontBatch` | yaay-mt-runtime/src/task_list.rs:54-62 | concatenates in front; writes only the `next` of the other list's tail |
| `TaskList.TaskList.PushFront` | yaay-mt-runtime/src/task_list.rs:48-50 | prepends one task |
| `TaskList.TaskList.PopFront` | yaay-mt-runtime/src/task_list.rs:67-81 | removes and returns the first task, or nothing from an empty list; never follows the tail's stale `next` |
| `TaskList.TaskList.IsEmpty` | yaay-mt-runtime/src/task_list.rs:85-87 | true exactly for the empty list |
| `TaskList.TaskList.PopAll` | yaay-mt-runtime/src/task_list.rs:91-98 | the whole content moves, in order, to a new list |
| `Batching.MoveList` | yaay-mt-runtime/src/batch.rs:25-30 | one batch list moves behind its queue, in order; no other list changes; says whether anything moved |
| `Batching.FlushLists` | yaay-mt-runtime/src/batch.rs:21-31 | all batch lists are moved, and `all_empty` says whether none held a task |
| `Batching.FlushedAt` | yaay-mt-runtime/src/batch.rs:22-31 | what flushing one list after the other amounts to: each flushed list is empty and at the back of its worker's queue, and nothing else changes |
| `Batching.PushBatch` | yaay-mt-runtime/src/batch.rs:18-33 | each queue is extended by its batch list, the batch lists are empty, and the epoch is bumped once exactly when something moved |
| `Batching.WakeIntoBatch` | yaay-mt-runtime/src/task.rs:122-128 | the task is last in its worker's batch list, and no other list changes |
| `Batching.BatchingKeepsWakeOrder` | yaay-mt-runtime/src/batch.rs:18-33 | batching refines direct wakes: in every interleaving of wakes, `push_batch`es and tasks being taken, what was taken from a worker's queue, its queue and its batch list together are what it had and the tasks woken for it, one by one in wake order |
| `Batching.WokenIsBumpedOrBatched` | yaay-mt-runtime/src/batch.rs:32-32 | in every such interleaving, a task was woken exactly if the epoch was bumped or a batch list holds a task |
| `Batching.EventTurn` | yaay-mio/src/shared.rs:101-112 | one event, with what workers take meanwhile, changes lists and epoch as its turns say |
| `Batching.Events` | yaay-mio/src/shared.rs:101-112 | so do all events of a batch |
| `Batching.PassIsTheEvents` | yaay-mio/src/shared.rs:101-114 | a pass wakes for each worker the tasks that its events wake, in their order; without its `push_batch`es it is the turns of the events one after the other; and there is one `push_batch` for every 128 events and one at the end |
| `Batching.EventStandsBehind` | yaay-mio/src/shared.rs:101-102 | event k stands behind all events before it and behind (k+1)/128 calls of `push_batch` |
| `Batching.PassWakesIff` | yaay-mio/src/shared.rs:101-114 | a pass wakes something exactly if one of its events does |
| `Batching.ReactorPass` | yaay-mio/src/shared.rs:98-121 | a whole pass, while workers take tasks and tasks that were flushed and polled are woken again: what was taken from a worker's queue and what is in it afterwards are what it had and the tasks that the events woke for that worker, in wake order; the reactor polls again with empty batch lists; and the epoch was bumped exactly if some event woke something |
| `Teardown.DropInPlace` | yaay-mt-runtime/src/task.rs:187-192 | the future is dropped unless it was already, and every waker it owns, of its own task or of another, loses its reference, which may free that task |
| `Teardown.RcDec` | yaay-mt-runtime/src/task.rs:101-107 | the count loses one, and the memory is freed exactly at zero |
| `Teardown.DropWaker` | yaay-mt-runtime/src/task_waker.rs:29-48 | a waker dropped by a destructor keeps every count exact and frees its task exactly with the last reference |
| `Teardown.ConcatHolds` | yaay-mt-runtime/src/worker_manager.rs:154-160 | the collected tasks are exactly those of all queues |
| `Teardown.Gather` | yaay-mt-runtime/src/worker_manager.rs:154-160 | all queues are emptied into the collecting list, queue after queue |
| `Teardown.CollectAll` | yaay-mt-runtime/src/worker_manager.rs:152-160 | the new list is the concatenation of all queues, and the queues are empty |
| `Teardown.Release` | yaay-mt-runtime/src/worker_manager.rs:161-168 | one task loses its future and the runtime's reference, and the warning about a leak is given exactly when it is not freed |
| `Teardown.ReleaseFront` | yaay-mt-runtime/src/worker_manager.rs:161-168 | one round releases exactly the front task; counts stay exact for all tasks, and every task still in the list is live although destructors free tasks |
| `Teardown.ReleaseAll` | yaay-mt-runtime/src/worker_manager.rs:161-168 | every task is dropped and released exactly once, in list order, and no freed node is read on the way |
| `Teardown.DropWorkers` | yaay-mt-runtime/src/worker_manager.rs:150-173 | every task left in any queue is collected in queue order, without duplicates, its future dropped exactly once with the wakers it owns; its final count is the number of wakers outside of futures and in futures that were not queued, and it is freed exactly if there are none; all other tasks keep their future and the runtime's reference |
| `Worker.Worker.Defer` | yaay-mt-runtime/src/worker.rs:76-78 | the task is first in the worker's own queue |
| `Worker.Worker.SpawnTarget` | yaay-mt-runtime/src/worker.rs:84-94 | the drawn index is in range, and the last one stands for the worker itself |
| `Worker.Worker.Spawn` | yaay-mt-runtime/src/worker.rs:82-96 | the task is last in the drawn worker's queue, the seed moves on, and the epoch is bumped exactly for another worker's queue |
| `Worker.Worker.Victim` | yaay-mt-runtime/src/worker.rs:176-178 | the victim exists and is another worker |
| `Worker.Worker.TrySteal` | yaay-mt-runtime/src/worker.rs:175-190 | the victim's front task is taken and belongs to the thief, with the seed kept; or there is none and only the seed moves on |
| `Worker.ThiefTriesAtMostEight` | yaay-mt-runtime/src/worker.rs:176-187 | after any number of misses, the victim is one of the first eight drawn |
| `Worker.ThiefNeverChangesVictimIff` | yaay-mt-runtime/src/worker.rs:176-187 | a missing thief keeps its first victim forever, on every seed, if and only if the number of other workers divides 32, that is, with 2, 3, 5, 9, 17 or 33 workers |

## Left out

- Liveness and fairness: that every worker exits, that a stealing worker returns to its own queue, that every victim is
  tried. The code does not guarantee them; the project proves the safety forms, and the runs that refute two of them.
- `Task::wake` of an idle task from a worker thread. Workers and batch guards share one thread-local pointer
  (`yaay-mt-runtime/src/worker.rs:68`, `yaay-mt-runtime/src/task.rs:255-258`), so the lookup at
  `yaay-mt-runtime/src/task.rs:123` would take a worker for batch data. In `TaskLife` wakes come from outside threads.
- Tasks that are idle when the runtime shuts down, and wakes after teardown: `WorkerGuard::drop` sees queued tasks only.
- Weak memory orderings, the inside of `parking_lot`, and clocks. Validation and enqueueing of `park` are one step with
  respect to `unpark_all`; the 1000 microsecond limit is the assumption of fewer than 2^23 bumps on the `Park` step.
- `mio::Poll`, sockets and `yaay-mio/src/net`: a poll returns any events of registered sources.
- Errors of `register` (`yaay-mio/src/container.rs:62`), which the source unwraps, and the choice of a reactor by the
  global counter: one reactor's slots are modelled, with registrations in any number and order.
- `Readiness` has the lock, the wakers and the handshake, and `Reactor` the lock, the slab and its keys: they describe the
  same lock sections and are not composed into one machine.
- A future that is polled on a wake and does not poll one of its waits: a poll that returns `Pending` is taken to be pending
  on all dispatchers that it waits on, as joined futures are, and to have given up the others.
- The reactors' own start-up loop (`yaay-mio/src/shared.rs:69-95`) and the drain after their shutdown
  (`yaay-mio/src/shared.rs:123-129`), which repeats the drain of the loop.
- The lock of `SyncTaskList`: a lock section is one step in the state machines and one method call in the heap code.
- Batching.ReactorPass: pushes of other producers into the same queues during a pass are in `System`, not here.
- What a destructor of a future does besides dropping wakers, such as waking other tasks during teardown.
- What a future does inside its poll: it may spawn, defer, clone its waker, do I/O, request shutdown and return at any time.
- Memory allocation, vtables, thread spawning, the order of effects in `run_with`, the clock-based seed, the API trait,
  benchmarks and test programs: they have no hard property of their own.
