# Verified model of tconcurrent

tconcurrent is a promise/future and coroutine runtime. What makes it hard is not its data but its protocols:
who settles a shared state when a runner, a canceler and the last promise race for it, what a cancelation
reaches, which run of a job a trigger is answered by, which resumption of a coroutine is still safe. This
project models those protocols in Dafny and proves what they guarantee, for every run.

## How it is built

Each protocol is one module with

* a state machine: a datatype `State`, a datatype `Action` with one constructor for each critical section,
  atomic operation or call out of the library, and a function `Step` that gives the next state of an enabled
  action. A run is a sequence of enabled actions (`Runs.Exec`), so a theorem about every action sequence is one
  about every interleaving of any number of threads, callbacks that reenter included. An assertion that fails,
  an index out of range, an empty stack popped or a promise set twice is a state of its own (`failed`, `fault`,
  or a program counter such as `SetTwice`), so that its absence is a theorem and not an assumption;
* an invariant, shown to be kept by every step with one small lemma for each kind of step, and the theorems that
  follow from it or by induction over the rest of the run;
* a class with the fields that the C++ object updates in place. Its methods are the C++ methods between two
  points at which another thread can interfere, or whole calls that nothing interferes with. They are proved to be
  steps, or runs, of the machine, so what the theorems say of every run holds of what the methods do.

| file | source | what it is about |
|---|---|---|
| `Outcomes.dfy`, `Runs.dfy` | | outcomes of futures; runs of a step function, and the induction over them |
| `PackagedTask.dfy` | `shared_base.hpp`, `packaged_task.hpp` | promise counting and the race to settle a task |
| `Continuations.dfy` | `shared_base.hpp` | `then` against `finish` |
| `CancelationToken.dfy` | `cancelation_token.hpp` | the stack of cancelation callbacks |
| `Futures.dfy` | `future.hpp` | `then`, `and_then`, `to_void`, `unwrap` on a heap of futures, and what they denote |
| `Unwrap.dfy` | `future.hpp` | `unwrap` under cancelation |
| `Job.dfy` | `job.hpp` | coalescing triggers, one run at a time, success promises |
| `Coroutine.dfy` | `stackful_coroutine.hpp` | nested `run_coroutine`, suspension, resumption, abort |
| `PeriodicTask.dfy` | `periodic_task.cpp` | the start/stop automaton |
| `When.dfy` | `when.hpp` | `when_all` and `when_any` |
| `ConcurrentQueue.dfy`, `Semaphore.dfy` | `concurrent_queue.hpp`, `semaphore.hpp` | the queue of futures, permits and scope locks |
| `LazyToken.dfy`, `LazyAsync.dfy`, `LazyThen.dfy` | `lazy/` | the sender token, `async`, and pipelines of `then`, `async_then`, `connect` |

## Where the code differs from what it says

The model follows the code; each difference is a theorem.

* The assertion at `packaged_task.hpp:143` ("this means the callback has run") fails for a task that was dropped
  without running. `FailedLock` says exactly when it holds and `FailedLockOnDroppedTask` gives the run that breaks it.
* `trigger_success` (`job.hpp:53-66`) promises the next run without error. When a plain `trigger` has already
  scheduled the job it pushes no promise and returns the last one in the vector. `UntakenPromiseWaits` and
  `TakenPromiseMayComeEarly` split the calls by a condition on the job's fields before the call: the promise is kept
  for the runs after the call if and only if the job is not scheduled or the vector holds a promise that the active
  run has not taken. `TriggerSuccessOnEmptyVector` is a call that reads an empty vector, and `TakenPromiseIsReturned`
  a run that returns a taken promise.
* `_scheduled` is cleared only by the task body (`job.hpp:109`). Canceling a posted run leaves it set with nothing
  scheduled. In a job that is not being destroyed, `trigger` returns the future of a run still to start if and only if
  no posted run was ever canceled: `TriggerReturnsUnstartedRun`; `CanceledJobIsDead` is the run that breaks it and
  `DeadForever` says that nothing repairs it.
* A periodic callback that ends with `operation_canceled` while running (`periodic_task.cpp:119-121`) leaves the task
  running without a timer: `CanceledCallbackSticks`, `StuckUntilStop`; `AtMostOneTick` says that nothing else does.
* The constructor of `when_any` (`when.hpp:161-164`) checks its index against a vector that the winner moves out. It
  indexes past the end if and only if a completion publishes between the check and the use: `IndexesPastTheEnd`. That
  takes another thread that settles an input while the loop runs: `StaysInBounds`. `ForeignSettlementFails` is such a run.
* The assertion that `abort_coroutine` is never caught (`stackful_coroutine.hpp:393-394`, `449-450`) is a demand on user
  code: a coroutine that is being aborted must end by it. `NoFault` says that the assertion fails if and only if some
  coroutine catches it, and then awaits again or ends by returning or throwing something else, and that no other
  assertion of `run_coroutine` fails; `CaughtAbortFaults` is a run of either kind.
* `~job` moves `_future` out before it waits (`job.hpp:29-35`), so a trigger in that window that has to schedule a run
  uses a null future. `MutualExclusion` says that a run of a job fails if and only if it contains such a trigger, or a
  `trigger_success` that finds an empty vector; `TriggerAfterStopFails` is a callback that triggers its own job then.
* A canceled waiter of a semaphore still consumes a permit (`future.hpp:372-373`): the conservation law counts these.

## Model

| member | source | states |
|---|---|---|
| PackagedTask.LocalKeepsOk | include/tconcurrent/packaged_task.hpp:104-152 | Any single atomic operation of a thread in promise_ptr, the task or its canceler leaves the cell consistent and never ends in a failed assertion, an empty pop or a null token. |
| PackagedTask.LocalKeepsOther | include/tconcurrent/packaged_task.hpp:104-152 | Such an operation breaks nothing another thread relies on, and never makes a second winner of _done or a second last dropper beside one. |
| PackagedTask.LocalAttends | include/tconcurrent/packaged_task.hpp:104-152 | While the task is unsettled, whoever won _done or dropped the last promise stays committed to settling it. |
| PackagedTask.CopyGivesOne | include/tconcurrent/detail/shared_base.hpp:273-283 | The exchange of a copy gives the copying thread one more promise and the count one more if the count is as it was read and the exchange does not fail spuriously; otherwise the count is read again. |
| PackagedTask.LockRetries | include/tconcurrent/detail/shared_base.hpp:273-283 | So it is with the promise that the canceler locks, which gives up only on a count of zero. |
| PackagedTask.MoveHandsOver | include/tconcurrent/detail/shared_base.hpp:58-69 | A move of a promise takes one from its source and gives one to its target, and leaves the count and all other threads alone. |
| PackagedTask.StepKeepsCounted | include/tconcurrent/detail/shared_base.hpp:31-132 | Through copies, moves, drops and locks the atomic count equals the number of promises that all threads hold. |
| PackagedTask.NoAssertionFails | include/tconcurrent/detail/shared_base.hpp:273-308 | In every interleaving of runners, cancelers, copies and drops, "state already set", the promise_ptr assertions and the token's pops never fail. |
| PackagedTask.SettledOnceAndForAll | include/tconcurrent/detail/shared_base.hpp:285-308 | A settled task keeps its outcome for the rest of any run, and the promise count never rises again from zero. |
| PackagedTask.QuiescentIsSettled | include/tconcurrent/packaged_task.hpp:104-152 | With no promise left and no operation in progress the task is settled: with broken_promise if and only if nobody won _done, otherwise by a runner or a canceler; its callback is off the token unless it was dropped unrun. |
| PackagedTask.SettlerHoldsTheWin | include/tconcurrent/packaged_task.hpp:107-151 | Only the thread that won _done can settle a task that was won. |
| PackagedTask.RunnerMoves | include/tconcurrent/packaged_task.hpp:104-121 | The winning runner's own actions lead only to settling with what its callback returned. |
| PackagedTask.RunnerSettles | include/tconcurrent/packaged_task.hpp:104-121 | From the moment a runner wins, the task can only settle with what its callback returned on that thread. |
| PackagedTask.CancelerSettles | include/tconcurrent/packaged_task.hpp:134-152 | From the moment a canceler wins, the task can only settle with operation_canceled. |
| PackagedTask.WinnerDecides | include/tconcurrent/packaged_task.hpp:107-151 | The first exchange of _done decides the final outcome of every run that reaches rest after it. |
| PackagedTask.DoneIffExchanged | include/tconcurrent/packaged_task.hpp:107-146 | _done is set exactly when some runner or some canceler past its lock has exchanged it. |
| PackagedTask.FailedLock | include/tconcurrent/packaged_task.hpp:139-145 | A canceler that fails to lock a promise finds the count at zero; its assertion holds if and only if the task was run or canceled before. |
| PackagedTask.FailedLockOnDroppedTask | include/tconcurrent/packaged_task.hpp:140-145 | A concrete run in which that assertion is false: the task is dropped unrun and then its callback is called. |
| PackagedTask.AloneRuns | include/tconcurrent/packaged_task.hpp:104-152 | What one thread alone does to the cell is a run of the whole machine. |
| PackagedTask.CallIsRun | include/tconcurrent/packaged_task.hpp:104-121 | An uninterrupted call of the task, from exchange to clearing _f, is a run that ends in the state SharedTask.Call states. |
| PackagedTask.CancelIsRun | include/tconcurrent/packaged_task.hpp:134-152 | An uninterrupted call of the canceler, with its lock and the promise it gives back, is a run that ends in the state SharedTask.CallCanceler states. |
| PackagedTask.DropIsRun | include/tconcurrent/detail/shared_base.hpp:285-290 | An uninterrupted drop of a promise is a run that ends in the state SharedTask.DecrementPromise states. |
| PackagedTask.SharedTask.constructor | include/tconcurrent/packaged_task.hpp:159-170 | A packaged task starts unsettled with one promise and, if cancelable, one callback on the token. |
| PackagedTask.SharedTask.IncrementPromise | include/tconcurrent/detail/shared_base.hpp:273-283 | For any number of spurious failures of its exchange the loop adds one to a positive count and succeeds, or leaves a zero count and fails. |
| PackagedTask.SharedTask.DecrementPromise | include/tconcurrent/detail/shared_base.hpp:285-290 | The count goes down by one, and the last drop of an unsettled task settles it with broken_promise. |
| PackagedTask.SharedTask.Finish | include/tconcurrent/detail/shared_base.hpp:298-303 | The critical section of finish stores the outcome and drops the token, and changes nothing else of the cell; Continuations has the callbacks it swaps out. |
| PackagedTask.SharedTask.Call | include/tconcurrent/packaged_task.hpp:104-121 | A first call settles the task with its callback's outcome, off the token and without callback; a later one changes nothing; the cell is at rest after. |
| PackagedTask.SharedTask.CallCanceler | include/tconcurrent/packaged_task.hpp:134-152 | On a live task nobody has won it settles with operation_canceled, off the token, count unchanged; otherwise it changes nothing. |
| Continuations.StepKeepsPlaced | include/tconcurrent/detail/shared_base.hpp:186-205 | Every continuation given to then is, at any time, in exactly one place: waiting, held by a thread, or posted. |
| Continuations.PostNextKeepsOrdered | include/tconcurrent/detail/shared_base.hpp:306-307 | While finish posts, what was posted of the early continuations followed by what it still holds is their registration order. |
| Continuations.PostedAtMostOnce | include/tconcurrent/detail/shared_base.hpp:186-205 | In every interleaving of then and finish no continuation is posted twice, and none before the state is settled. |
| Continuations.AllPostedOnce | include/tconcurrent/detail/shared_base.hpp:292-308 | Once settled and at rest every continuation ever registered has been posted exactly once, those registered before settlement in registration order. |
| Continuations.FinishIsRun | include/tconcurrent/detail/shared_base.hpp:292-308 | An uninterrupted finish is a run that appends all waiting continuations to the posted ones. |
| Continuations.ThenIsRun | include/tconcurrent/detail/shared_base.hpp:186-205 | An uninterrupted then is a run that registers its continuation, or posts it on a settled state. |
| Continuations.SharedBase.Then | include/tconcurrent/detail/shared_base.hpp:186-205 | The continuation waits on an unsettled state and is posted last on a settled one. |
| Continuations.SharedBase.Finish | include/tconcurrent/detail/shared_base.hpp:292-308 | The loop over the swapped-out vector posts everything that waited, in order and after what was posted before. |
| CancelationToken.CancelIsNeverLost | include/tconcurrent/cancelation_token.hpp:53-108 | In every interleaving of push, pop and request the flag is set if and only if some thread requested; then the callback of the push on top has been called since that push, or a thread is about to call it; before, none is called. |
| CancelationToken.PushesAreDistinct | include/tconcurrent/cancelation_token.hpp:53-62 | Every push has a callback of its own: it was never copied, called or on the stack before, and none is on the stack twice. |
| CancelationToken.KeptIsTopmost | include/tconcurrent/cancelation_token.hpp:64-75 | A call of the top removes exactly the callbacks above the topmost one that does not pop itself. |
| CancelationToken.CalledFromTop | include/tconcurrent/cancelation_token.hpp:64-108 | A call of the top calls it first and, if it pops itself, goes on with the callback below. |
| CancelationToken.CallTopIsRun | include/tconcurrent/cancelation_token.hpp:64-108 | That chain of calls and pops, uninterrupted, is a run of the machine with the stack and calls the class states. |
| CancelationToken.OperationsAreRuns | include/tconcurrent/cancelation_token.hpp:53-108 | Uninterrupted, a request, also a repeated one, and after it a push and a pop are runs that end in the states the class states, the top and what it leads to having been called. |
| CancelationToken.CancelationToken.PushCancelationCallback | include/tconcurrent/cancelation_token.hpp:53-62 | A new callback goes on top, and after a request the top is called, with all that follows from it. |
| CancelationToken.CancelationToken.PopCancelationCallback | include/tconcurrent/cancelation_token.hpp:64-75 | The top goes, and after a request the new top is called, with all that follows from it. |
| CancelationToken.CancelationToken.RequestCancel | include/tconcurrent/cancelation_token.hpp:99-108 | The request is recorded and the top called, down to the first callback that stays. |
| CancelationToken.CancelationToken.CallTop | include/tconcurrent/cancelation_token.hpp:64-108 | Recursion through callbacks that pop themselves leaves the kept prefix and calls the rest in LIFO order. |
| CancelationToken.CancelationToken.RequestThenUnwind | include/tconcurrent/cancelation_token.hpp:22-45 | After one request inside nested scopes, ending the scopes calls every callback exactly once in LIFO order and leaves the stack empty. |
| Futures.DenotesOne | include/tconcurrent/future.hpp:349-384 | A future denotes at most one outcome. |
| Futures.DenotesMapped | include/tconcurrent/future.hpp:158-185 | then, and_then and to_void denote the map of what their parent denotes, in both directions. |
| Futures.DenotesThen | include/tconcurrent/future.hpp:85-129 | then denotes what its callback makes of any outcome its parent denotes, exceptions included, and nothing else. |
| Futures.DenotesAndThen | include/tconcurrent/future.hpp:137-185 | and_then denotes what its callback makes of a value its parent denotes, or an exception its parent denotes, and nothing else. |
| Futures.DenotesToVoid | include/tconcurrent/future.hpp:504-508 | to_void denotes the unit for a value its parent denotes, or an exception its parent denotes. |
| Futures.DenotesUnwrapped | include/tconcurrent/future.hpp:510-545 | unwrap denotes the outer exception or what the inner future denotes, in both directions. |
| Futures.StepKeepsTask | include/tconcurrent/detail/shared_base.hpp:186-308 | Every unsettled derived future has exactly one task that will take it further: waiting on what it awaits, or posted once that is settled. |
| Futures.SettledAsDenoted | include/tconcurrent/future.hpp:349-384 | Every outcome that a step settles a future with is one it denotes. |
| Futures.ScheduleIndependence | include/tconcurrent/future.hpp:98-185 | In any two schedules a future settled in both has the same outcome, the one it denotes. |
| Futures.CompleteRunsDenote | include/tconcurrent/future.hpp:349-545 | At the end of every complete run a future holds an outcome if and only if it denotes it. |
| Futures.PostedTaskCanRun | include/tconcurrent/future.hpp:349-384 | A posted task finds its future unsettled and its parent settled, and can run as soon as the futures it returns exist. |
| Futures.TaskSettles | include/tconcurrent/future.hpp:349-384 | A task that runs settles its future with its callback's result for whatever the parent holds (then), or for a value only, keeping an exception (and_then, to_void); unwrap's first one passes an exception on and settles nothing on a value, its second one passes on what the inner future holds. |
| Futures.EquivalentFuturesAgree | include/tconcurrent/future.hpp:137-157 | Futures with the same denotations hold the same at the end of every complete run. |
| Futures.FunctorIdentity | include/tconcurrent/future.hpp:137-144 | and_then with the identity is the future itself: the first functor law of the documented fmap. |
| Futures.FunctorComposition | include/tconcurrent/future.hpp:137-144 | Two and_then in a row equal one with the composed function, exceptions short-circuiting: the second functor law. |
| Futures.JoinOfReady | include/tconcurrent/future.hpp:510-545 | Unwrapping a ready future of a future gives the inner one: left unit. |
| Futures.JoinOfMappedReady | include/tconcurrent/future.hpp:510-545 | Unwrapping after mapping every value to a ready future changes nothing: right unit. |
| Futures.JoinAssociativity | include/tconcurrent/future.hpp:510-545 | Unwrapping a three-level future from the outside in or from the inside out gives the same. |
| Futures.Heap.RegisterOn | include/tconcurrent/detail/shared_base.hpp:186-205 | The task waits on an unsettled cell and is posted otherwise, as the machine does it. |
| Futures.Heap.FinishWith | include/tconcurrent/detail/shared_base.hpp:292-308 | Settling a cell posts each of its waiting tasks once. |
| Futures.Heap.CreateFuture | include/tconcurrent/future.hpp:349-362 | Creating a derived future is the machine's step, whether its parent is settled or not. |
| Futures.Heap.RunTask | include/tconcurrent/future.hpp:514-540 | Running a posted continuation, or either lambda of unwrap, is the machine's step, of which TaskSettles says what it settles. |
| Unwrap.JoinsUnderCancelation | include/tconcurrent/future.hpp:514-545 | For every order of outer settlement, inner settlement and any number of cancel requests, with an inner future on its own token or an inner task on the shared one, the result is set at most once, to the outer exception or the inner outcome, no pop takes somebody else's callback, and the token's stack returns to its depth. |
| Unwrap.CancelReachesInner | include/tconcurrent/future.hpp:514-545 | A cancelation of the result, before or after the inner future arrived, reaches an unsettled inner future with its own token, an inner or outer task on the shared token that has not started, or what lies below once nothing of the chain is on the token; or it is held by a thread about to pass it on. |
| Unwrap.QueuedTaskIsCanceled | include/tconcurrent/packaged_task.hpp:134-152 | A thread that calls the callback of an inner task that has not started settles it with operation_canceled, and nothing else settles it before it starts. |
| Unwrap.PendingOuterIsCanceled | include/tconcurrent/packaged_task.hpp:134-152 | The outer task settles before its start only after a request, with operation_canceled. |
| Unwrap.CanceledTaskIsTheResult | include/tconcurrent/future.hpp:514-545 | If the inner task is canceled so, then over any further run the result of the chain is operation_canceled. |
| Unwrap.OutcomesAreGiven | include/tconcurrent/future.hpp:514-545 | Over any run the outer and the inner future hold what they settled with themselves, or operation_canceled. |
| Unwrap.AttachIsRun | include/tconcurrent/future.hpp:524-530 | The push of unwrap's callback, which calls it at once if the request came first, is a run of the chain's thread. |
| Unwrap.DetachIsRun | include/tconcurrent/future.hpp:531-533 | The pop of unwrap's callback takes that callback, and what a request makes it call below leaves the chain as it is. |
| Unwrap.Chain.ContinueOuter | include/tconcurrent/future.hpp:519-540 | The first lambda is a run: the outer exception becomes the result with the stack at its depth, or the inner future is attached, and cancel-requested at once if the request came before. |
| Unwrap.Chain.ContinueInner | include/tconcurrent/future.hpp:531-538 | The second lambda is a run after which the result is the inner outcome and the stack at its depth. |
| Unwrap.NoDeadlock | include/tconcurrent/future.hpp:514-545 | Until the result is set, the chain itself or one of its futures can take a step. |
| Unwrap.ChainEnds | include/tconcurrent/future.hpp:514-545 | A run has no more steps than a rank of its state and two for each request, so with NoDeadlock the result is set in the end. |
| Job.QuietChange | include/tconcurrent/job.hpp:116-139 | A run that fails, throws or just returns its future leaves every success promise in place. |
| Job.PushChange | include/tconcurrent/job.hpp:86-87 | A promise pushed at any time, also during a run and by reentrant triggers, keeps the order and the claims of all others. |
| Job.SuccessChange | include/tconcurrent/job.hpp:118-129 | When a run succeeds, every promise it took is owed to this run, being the first success after its push. |
| Job.FulfillChange | include/tconcurrent/job.hpp:128-129 | The loop fulfils a promise that exists and was not fulfilled, with the first successful run started after its push. |
| Job.EraseChange | include/tconcurrent/job.hpp:130-132 | Erasing the taken prefix drops exactly fulfilled promises and reorders none of the others. |
| Job.TriggerKeepsInv | include/tconcurrent/job.hpp:81-100 | triggerImpl keeps the job's invariant in every reachable state, ready or pending previous future included. |
| Job.CurrentKeepsInv | include/tconcurrent/job.hpp:102-143 | So does every step of the run that is under way. |
| Job.MutualExclusion | include/tconcurrent/job.hpp:27-142 | In every run, with throws, failing futures, reentrant triggers and destruction, at most one call of _cb is in flight until its future settles and _running says so; an assertion, index, promise, null future or empty vector fails if and only if the run contains a trigger that must schedule after the destructor moved _future out, or a trigger_success that finds no promise. |
| Job.TriggerAfterStopFails | include/tconcurrent/job.hpp:27-36 | A concrete run: a callback triggers its job while the destructor waits for it, and the null future is used. |
| Job.FirstSuccessFulfills | include/tconcurrent/job.hpp:86-132 | A success promise is fulfilled only by the first successful run started after its push, and misses none; unfulfilled promises keep their order. |
| Job.TriggerReturnsUnstartedRun | include/tconcurrent/job.hpp:46-51 | Over any run of a job that is not being destroyed: trigger returns the future of a run that has not started if and only if no posted run was ever canceled. |
| Job.DeadIffCanceled | include/tconcurrent/job.hpp:81-143 | The invariant behind it: _scheduled is set with nothing scheduled if and only if some posted run was canceled. |
| Job.CanceledJobIsDead | include/tconcurrent/job.hpp:83-109 | A concrete run: one trigger, its posted run canceled, and from then on every trigger returns the canceled future. |
| Job.UncanceledIsAlive | include/tconcurrent/job.hpp:81-143 | Without stop or cancelation a job never gets into that state. |
| Job.CancelKills | include/tconcurrent/job.hpp:104-111 | Canceling a posted run leaves _scheduled set with nothing scheduled. |
| Job.StoppingStartsNothing | include/tconcurrent/job.hpp:104-111 | From the moment of a stop, over any run, no run starts, none is scheduled, and one that had not started never gets to its callback. |
| Job.StoppingCancels | include/tconcurrent/job.hpp:94-111 | Such a run settles with operation_canceled and nothing else. |
| Job.DeadForever | include/tconcurrent/job.hpp:83-100 | Such a job never schedules, starts or promises anything again, whatever is done with it. |
| Job.TriggersCoalesce | include/tconcurrent/job.hpp:38-51 | Until a run starts, every trigger is a no-op that returns the future of the same run. |
| Job.FirstStartServes | include/tconcurrent/job.hpp:38-51 | The first run to start after a trigger is the one whose future the trigger returned. |
| Job.SettlesForAReason | include/tconcurrent/job.hpp:88-143 | In every run the future of a run settles with the exception thrown or the outcome of the future returned by that very call, after it started; or with operation_canceled, and then only if its posted run was canceled or the job destroyed. |
| Job.SettlesWithItsRun | include/tconcurrent/job.hpp:88-143 | Hence without cancelation it settles only after its run started, with that run's outcome. |
| Job.TriggerIsAnswered | include/tconcurrent/job.hpp:38-51 | In any run without a posted run canceled before the call, the future trigger returns settles with the outcome of a run started after the call, or is canceled for one of those two reasons. |
| Job.TriggerIsServed | include/tconcurrent/job.hpp:38-51 | Without any cancelation it is always the outcome of a run that started after the call. |
| Job.NoDeadlock | include/tconcurrent/job.hpp:81-143 | While some future of the job is unsettled, some step of a run is enabled. |
| Job.AtRest | include/tconcurrent/job.hpp:81-143 | When all futures are settled nothing is scheduled or running, and the promises left are exactly those no run has succeeded for since their push. |
| Job.UntakenPromiseWaits | include/tconcurrent/job.hpp:53-66 | If the job is not scheduled, or holds a promise the active run has not taken, the future trigger_success returns gets ready only by the first successful run started after the call. |
| Job.TakenPromiseMayComeEarly | include/tconcurrent/job.hpp:61-66 | Otherwise the call is a misuse, in a scheduled job exactly when the vector is empty; or some continuation of the run makes the returned future ready by a run that had started before the call. |
| Job.TakenPromiseIsReturned | include/tconcurrent/job.hpp:61-66 | A concrete run: trigger_success, start, trigger, and a trigger_success whose future the run already started makes ready. |
| Job.TriggerSuccessOnEmptyVector | include/tconcurrent/job.hpp:61-66 | trigger followed by trigger_success on a new job reads the back of an empty vector, and is one of these misuses. |
| Job.ReachableIsLoopReady | include/tconcurrent/job.hpp:128-132 | In every reachable fulfilling state the promises the loop has left are present, distinct and unfulfilled. |
| Job.JobScheduler.TriggerLocked | include/tconcurrent/job.hpp:46-51 | trigger is the machine's step unless it is a misuse, and returns the last slot's future, or a null one once the destructor has moved it out. |
| Job.JobScheduler.TriggerSuccessLocked | include/tconcurrent/job.hpp:61-66 | trigger_success is the machine's step unless it is a misuse, and returns the future of the last promise. |
| Job.JobScheduler.TriggerRun | include/tconcurrent/job.hpp:81-100 | triggerImpl schedules a run and pushes a promise as the machine does, and keeps the invariant. |
| Job.JobScheduler.BeginRun | include/tconcurrent/job.hpp:104-115 | The locked start of a posted run is the machine's step: it throws if and only if the job is stopping, and then the run ends with operation_canceled with nothing running or started; otherwise it takes all promises there are, counts as the one run that is started, and the job is running. |
| Job.JobScheduler.EndCallback | include/tconcurrent/job.hpp:120-126 | The start of the continuation of the callback's future is the machine's step, for values and exceptions. |
| Job.JobScheduler.FulfillTaken | include/tconcurrent/job.hpp:128-129 | The index loop is a run of single fulfilments, and fulfils exactly the promises the run took at its start. |
| Job.JobScheduler.FulfillAndErase | include/tconcurrent/job.hpp:128-132 | Loop and erase together fulfil the taken prefix and remove it and nothing else. |
| Coroutine.StepKeepsChain | include/tconcurrent/stackful_coroutine.hpp:194-242 | Every step keeps the current pointer and the previous_coroutine fields equal to what the stack of run_coroutine calls implies, and faults exactly when an aborting coroutine awaits again or ends otherwise than by abort_coroutine. |
| Coroutine.StepKeepsAwaits | include/tconcurrent/stackful_coroutine.hpp:311-326 | Every step keeps each await resumed exactly when its coroutine has left it, with its completion queued until then. |
| Coroutine.NoFault | include/tconcurrent/stackful_coroutine.hpp:194-478 | Over every run with cancelation of suspended coroutines only, the assertion that abort_coroutine is not caught fails if and only if some coroutine catches it, and then awaits again, returns or throws something else; no other assertion of run_coroutine fails and nothing touches a deleted control block or a dead await frame. |
| Coroutine.CaughtAbortFaults | include/tconcurrent/stackful_coroutine.hpp:382-395 | Two concrete runs in which that assertion fails: a canceled coroutine awaits again, and one returns. |
| Coroutine.UncaughtAbortEnds | include/tconcurrent/stackful_coroutine.hpp:664-668 | A canceled coroutine that lets abort_coroutine through is deleted with status aborted and no fault. |
| Coroutine.ResumedExactlyOnce | include/tconcurrent/stackful_coroutine.hpp:367-478 | Every suspension is resumed at most once, by completion or abort, and no completion is lost. |
| Coroutine.QueuedResumptionIsSafe | include/tconcurrent/stackful_coroutine.hpp:314-325 | A queued resumption does nothing after an abort, and otherwise runs a coroutine suspended at just that await. |
| Coroutine.AbortRunsToTheEnd | include/tconcurrent/stackful_coroutine.hpp:438-451 | Canceling a suspended coroutine runs it once more, and one that is being aborted is deleted by the time it leaves the stack. |
| Coroutine.RunCoroutineRestores | include/tconcurrent/stackful_coroutine.hpp:196-207 | Whatever was nested in between, when the stack is as before so are the current pointer and the previous_coroutine of every coroutine on it, and all others have none. |
| Coroutine.AtRest | include/tconcurrent/stackful_coroutine.hpp:194-242 | With nothing running or queued there is no current coroutine, and every live one waits for something that has not completed. |
| Coroutine.Scheduler.RunCoroutine | include/tconcurrent/stackful_coroutine.hpp:194-214 | Entering a coroutine links it to the previous current one, as the machine does it; its precondition is the assertion. |
| Coroutine.Scheduler.LeaveCoroutine | include/tconcurrent/stackful_coroutine.hpp:201-241 | Leaving it restores the previous current coroutine, unlinks or deletes the control block, and returns waiting, finished or aborted. |
| Coroutine.Scheduler.EndCoroutine | include/tconcurrent/stackful_coroutine.hpp:226-234 | The end of a coroutine is the machine's step, and the assertion of a canceler that runs it, on the status it gets back, holds exactly when that step does not fault. |
| Coroutine.Scheduler.Submit | include/tconcurrent/stackful_coroutine.hpp:638-687 | Submitting a coroutine is the machine's step: the new one runs at once, on top of whatever is running. |
| Coroutine.Scheduler.SuspendRunning | include/tconcurrent/stackful_coroutine.hpp:367-403 | await suspends the running coroutine at a fresh await that nothing has resumed. |
| Coroutine.Scheduler.PostCompletion | include/tconcurrent/stackful_coroutine.hpp:311-326 | A completion is queued once and leaves every await's account in order. |
| Coroutine.Scheduler.BeginWork | include/tconcurrent/stackful_coroutine.hpp:209-221 | Work dispatched on the thread context runs with no current coroutine. |
| Coroutine.Scheduler.EndWork | include/tconcurrent/stackful_coroutine.hpp:209-221 | After it, whatever it ran, its coroutine runs again and is current. |
| Coroutine.Scheduler.RunTask | include/tconcurrent/stackful_coroutine.hpp:314-325 | The executor's task for a completed await is the machine's step, and meets the assertion of run_coroutine. |
| Coroutine.Scheduler.CallCanceler | include/tconcurrent/stackful_coroutine.hpp:382-395 | The cancelation callback of a suspended coroutine is the machine's step, meets the assertion of run_coroutine, and from then on its own assertion fails of every status but aborted. |
| PeriodicTask.RegisterKeepsInv | src/periodic_task.cpp:42-66 | A continuation of stop on a ready chain runs inline and leaves the task stopped, never failing its assertion. |
| PeriodicTask.SettleKeepsInv | src/periodic_task.cpp:84-128 | The settlement of a chain releases the waiting calls of stop and leaves at most the one new timer. |
| PeriodicTask.CancelLeaves | src/periodic_task.cpp:54-55 | Whatever the cancelation request inside stop settles at once, the timer or the future of a callback in progress with any outcome, it schedules nothing and the task is Stopping or Stopped. |
| PeriodicTask.StopKeepsInv | src/periodic_task.cpp:42-66 | stop keeps the invariant and returns one future for each call, ready at once on a stopped task; it stops at once a task whose timer is pending or whose callback's future settles inside the request. |
| PeriodicTask.AtMostOneTick | src/periodic_task.cpp:15-128 | There is never more than one timer, posted call or callback in progress, none when stopped, and none while running if and only if the last call ended with operation_canceled. |
| PeriodicTask.ReadiesAll | src/periodic_task.cpp:42-128 | Any step that makes a future of stop ready makes all of them ready and leaves the task stopped without a tick. |
| PeriodicTask.StopFutureMeansStopped | src/periodic_task.cpp:42-66 | Whichever step makes a future of stop ready, then the task is stopped, has no tick, and no other future of stop waits. |
| PeriodicTask.StopCompletes | src/periodic_task.cpp:42-66 | While a future of stop waits there is one tick, and every way it can end makes that future ready with the task stopped. |
| PeriodicTask.NoCallUntilStart | src/periodic_task.cpp:15-40 | A stopped task fires no tick and calls nothing before the next start. |
| PeriodicTask.CallsAreFires | src/periodic_task.cpp:84-108 | Over any run the callback is called once for each tick that fires. |
| PeriodicTask.NothingWithoutCallback | src/periodic_task.cpp:15-20 | Without set_callback a stopped task stays stopped, whatever start and stop are called: no tick, no call. |
| PeriodicTask.StartLeavesOne | src/periodic_task.cpp:28-40 | A start of a stopped task leaves one tick, on a new chain: a posted call if it is to run at once, a timer if not. |
| PeriodicTask.StopAfterDelayedStart | src/periodic_task.cpp:28-66 | A stop right after a delayed start leaves everything stopped at once and nothing called. |
| PeriodicTask.StopAfterImmediateStart | src/periodic_task.cpp:28-66 | A stop right after an immediate start leaves the task stopping and its future waiting, with the posted call still to come. |
| PeriodicTask.StuckUntilStop | src/periodic_task.cpp:119-121 | A task stuck after operation_canceled ignores start and never ticks; stop stops it at once. |
| PeriodicTask.CanceledCallbackSticks | src/periodic_task.cpp:110-127 | A concrete run that gets there. |
| PeriodicTask.Task.StartTask | src/periodic_task.cpp:15-40 | start is the machine's step; it throws exactly without a callback or while stopping, leaves a running task alone, and otherwise adds one tick: a posted call when immediate, a timer when not. |
| PeriodicTask.Task.RunContinuations | src/periodic_task.cpp:56-65 | The loop over a settled chain's continuations makes all its waiting futures ready and stops the task if one of them left Running. |
| PeriodicTask.Task.StopTask | src/periodic_task.cpp:42-66 | stop is the machine's step in all three states, whether or not the request settles the chain at once, and keeps the invariant. |
| PeriodicTask.Task.RequestCancel | src/periodic_task.cpp:55 | The cancelation request on _future is the machine's, nested continuations included. |
| PeriodicTask.Task.EndCall | src/periodic_task.cpp:110-127 | The end of a callback's future up to its chain's settlement is the machine's step for values, cancelations and errors. |
| WhenAll.LastCountFindsAll | include/tconcurrent/when.hpp:56-66 | When the n-th completion is counted, every slot holds the settled input of its index. |
| WhenAll.SetByTheLast | include/tconcurrent/when.hpp:56-66 | In every interleaving of stores and counts count < total holds at every entry, and the promise is set once, exactly by the n-th completion, with every input in its slot. |
| WhenAll.EndsWithAResult | include/tconcurrent/when.hpp:112-136 | With all inputs registered and settled, whatever the order, a run that cannot go on has set the promise. |
| WhenAll.CancelReachesAll | include/tconcurrent/when.hpp:94-98 | The loop of a cancelation of the result goes on until it has come to all n inputs, and each one it has come to is asked or settled, even if inputs settle while it is passed on; none that was settled before is asked. |
| WhenAll.CallIsRun | include/tconcurrent/when.hpp:56-66 | An uninterrupted call of the callback is a run with the fields that Callback.Call states, and meets its precondition. |
| WhenAll.Callback.Call | include/tconcurrent/when.hpp:56-66 | It stores its input in its slot, and sets the promise exactly when it is the last. |
| WhenAll.Callback.CompleteAll | include/tconcurrent/when.hpp:130-135 | Completing all inputs in any order gives every outcome in its place, and not before the last. |
| WhenAny.AnswersOnce | include/tconcurrent/when.hpp:167-177 | The promise is set at most once, by a step that reports a settled input and hands back all inputs in order, with auto_cancel after every other was asked to cancel or settled. |
| WhenAny.FirstExchangeAnswers | include/tconcurrent/when.hpp:167-177 | Over any run the index reported is that of the input whose continuation ran its exchange first. |
| WhenAny.NoneAskedWithoutAutoCancel | include/tconcurrent/when.hpp:171-174 | Without auto_cancel no run asks any input to cancel. |
| WhenAny.SettledIsNotAsked | include/tconcurrent/when.hpp:171-174 | A settled input is not asked by any run from there. |
| WhenAny.EndsWithAnAnswer | include/tconcurrent/when.hpp:161-177 | If a registered input is settled, a run that cannot go on has answered. |
| WhenAny.IndexesPastTheEnd | include/tconcurrent/when.hpp:161-175 | Over any run, the constructor's loop indexes the vector past its end if and only if a completion publishes between its check and its use of the index. |
| WhenAny.StaysInBounds | include/tconcurrent/when.hpp:161-164 | So it stays in bounds if no other thread settles an input while the loop runs: inputs ready before, and completions on the constructing thread that move the vector out inside then, are harmless. |
| WhenAny.ForeignSettlementFails | include/tconcurrent/when.hpp:161-175 | A concrete run with two inputs in which another thread settles the first one and wins, and the loop indexes past the end. |
| WhenAny.Callback.Call | include/tconcurrent/when.hpp:167-177 | The call with its canceling loop is a run on the thread of its input; the winner cancels each unsettled other and answers, a loser changes no answer, request or vector. |
| WhenAny.Callback.CancelInputs | include/tconcurrent/when.hpp:171-174 | The loop over the other inputs is a run that has asked each of them, or found it settled, and asked no other. |
| WhenAny.Callback.CancelInput | include/tconcurrent/when.hpp:172-174 | One iteration asks one unsettled other input, which may settle at once and run its own continuation inside, and is a run. |
| ConcurrentQueue.StepKeepsInv | include/tconcurrent/concurrent_queue.hpp:18-48 | Every push and pop is possible and keeps the i-th pop bound to the i-th push. |
| ConcurrentQueue.PopsGetPushesInOrder | include/tconcurrent/concurrent_queue.hpp:18-54 | Over any run the i-th pop has a value if and only if i values were pushed, and it is the i-th; waiters and values are never both there; size is the excess of pushes. |
| ConcurrentQueue.Queue.PushValue | include/tconcurrent/concurrent_queue.hpp:18-31 | push is the machine's step, with neither assertion nor promise failing. |
| ConcurrentQueue.Queue.PopFuture | include/tconcurrent/concurrent_queue.hpp:32-48 | pop is the machine's step and returns the future of its own number. |
| ConcurrentQueue.Queue.Size | include/tconcurrent/concurrent_queue.hpp:50-54 | size is the number of pushes less that of pops, and zero when pops are ahead. |
| Semaphore.StepKeepsInv | include/tconcurrent/semaphore.hpp:18-69 | Every acquire, release, move, assignment, destruction and cancelation keeps the permit account and the place of every grant. |
| Semaphore.PermitsAreConserved | include/tconcurrent/semaphore.hpp:47-74 | Over any run N plus the releases, direct ones counted by the calls, equals available permits plus grants plus those lost to canceled waiters; every pop has got its token or waits, and nobody waits while a permit is available. |
| Semaphore.WaitersAreServedInOrder | include/tconcurrent/semaphore.hpp:53-69 | Over any run a waiting pop keeps its place until all before it are served; its token is lost if and only if its cancelation was requested before, and otherwise granted to acquire or as a lock, as it asked. |
| Semaphore.PopIsNext | include/tconcurrent/semaphore.hpp:58-69 | A pop is the next one in order: granted at once if and only if a permit is available, waiting behind all others if not. |
| Semaphore.LocksReleaseOnce | include/tconcurrent/semaphore.hpp:18-35 | Over any run and any chain of moves, each granted permit is held by exactly one lock, or was released, exactly once; never both. |
| Semaphore.MoveConstructHandsOver | include/tconcurrent/semaphore.hpp:18-20 | A move constructor gives the new lock exactly the grant its source held and empties the source; no other lock, permit or release changes. |
| Semaphore.MoveAssignHandsOver | include/tconcurrent/semaphore.hpp:21-30 | A move assignment gives the target exactly the source's grant, empties the source and releases exactly the target's old grant, also when that release grants a waiting lock; onto itself it does nothing. |
| Semaphore.DestroyReleases | include/tconcurrent/semaphore.hpp:31-35 | A destroyed lock is null and has released exactly what it held; the permit goes to the first waiter or is available, and no other lock changes. |
| Semaphore.ReleasedStays | include/tconcurrent/semaphore.hpp:18-56 | What was released stays so in order and what was granted is not granted again, so one step of a run releases a grant. |
| Semaphore.AllReleased | include/tconcurrent/semaphore.hpp:31-35 | When no lock is set any more, every grant was released exactly once. |
| Semaphore.LiveLocksAreBounded | include/tconcurrent/semaphore.hpp:64-69 | With permits taken only as locks, live locks, available permits and lost permits add up to N. |
| Semaphore.Semaphore.constructor | include/tconcurrent/semaphore.hpp:47-51 | The loop makes N permits available. |
| Semaphore.Semaphore.PopToken | include/tconcurrent/semaphore.hpp:58-69 | A pop takes a permit or waits, as the machine does it. |
| Semaphore.Semaphore.ReleaseToken | include/tconcurrent/semaphore.hpp:53-56 | A release serves the first waiter, canceled or not, or makes a permit available. |
| Semaphore.Semaphore.DestroyLock | include/tconcurrent/semaphore.hpp:31-35 | A lock that is set releases once, a moved-from one does nothing. |
| Semaphore.Semaphore.MoveConstructLock | include/tconcurrent/semaphore.hpp:18-20 | The new lock takes over the source's grant, as the machine does it. |
| Semaphore.Semaphore.MoveAssignLock | include/tconcurrent/semaphore.hpp:21-30 | The target's permit is released and the source's taken over, also when the release grants a waiting lock; self-assignment changes nothing. |
| LazyToken.CalledOnceOrDropped | include/tconcurrent/lazy/cancelation_token.hpp:39-69 | In every interleaving the token is canceled if and only if somebody requested it, and a canceler is called at most once: always if the cancelation precedes its installation or finds it set, and not if it was reset before. |
| LazyToken.ResetForGood | include/tconcurrent/lazy/cancelation_token.hpp:65-69 | reset always clears the canceler, and over any run from a reset before the cancelation none installed until then is ever called. |
| LazyToken.OnlyHolderActs | include/tconcurrent/lazy/cancelation_token.hpp:39-69 | In any run from inside a canceler another thread uses the token only after its last canceler has returned. |
| LazyToken.CallReturns | include/tconcurrent/lazy/cancelation_token.hpp:39-64 | An operation that enters a canceler, which may reset the token under the recursive mutex, is a run up to its return. |
| LazyToken.Token.ResetCanceler | include/tconcurrent/lazy/cancelation_token.hpp:65-69 | reset is the machine's step: no canceler is set after it, none is called and the cancelation stays as it is. |
| LazyToken.Token.RequestCancelation | include/tconcurrent/lazy/cancelation_token.hpp:39-51 | A first request with a canceler set calls it once; any other calls nothing; both are runs. |
| LazyToken.Token.InstallCanceler | include/tconcurrent/lazy/cancelation_token.hpp:57-64 | A canceler set after the cancelation is called at once, before it is only kept; both are runs. |
| LazyAsync.ExactlyOneSignal | include/tconcurrent/lazy/async.hpp:34-51 | In every interleaving of submission, task and any number of cancelers the receiver gets at most one signal, set_done only after a cancelation, and exactly one when submission and task are through. |
| LazyAsync.EarlyCancelWins | include/tconcurrent/lazy/async.hpp:39-43 | A cancelation before the task has started means set_done. |
| LazyAsync.UncanceledGetsValue | include/tconcurrent/lazy/async.hpp:44-50 | Without a cancelation the receiver gets set_value. |
| LazyAsync.FirstRequestCalls | include/tconcurrent/lazy/async.hpp:35-43 | The token is canceled if and only if it was before submit or some thread has requested it; a request calls the canceler if and only if it is the first, submit has set it and the receiver has got nothing. |
| LazyAsync.LockExcludes | include/tconcurrent/lazy/cancelation_token.hpp:39-69 | While a thread is inside the canceler no other one changes the token or calls the receiver. |
| LazyAsync.NoDeadlock | include/tconcurrent/lazy/async.hpp:34-51 | The mutex held over a canceler that resets the token never blocks all threads. |
| LazyAsync.AsyncData.Submit | include/tconcurrent/lazy/async.hpp:35-51 | submit is a run that posts the task, and signals set_done first if the token is canceled. |
| LazyAsync.AsyncData.RunTask | include/tconcurrent/lazy/async.hpp:45-49 | The posted task is a run that signals set_value unless a canceler fired first. |
| LazyAsync.AsyncData.RequestCancelation | include/tconcurrent/lazy/async.hpp:39-43 | A request is a run that signals set_done if it is the first, the canceler is set and nothing has fired. |
| LazyAsync.AsyncData.CallCanceler | include/tconcurrent/lazy/async.hpp:39-43 | The canceler fires and signals set_done once, and does nothing after the task has fired. |
| LazyThen.DenotesOne | include/tconcurrent/lazy/then.hpp:42-172 | A pipeline denotes at most one completion. |
| LazyThen.StepKeepsMeaning | include/tconcurrent/lazy/then.hpp:51-136 | Each step of a completion through a receiver keeps what will reach the final receiver, or turns it into done after a cancelation. |
| LazyThen.FinishedAsDenoted | include/tconcurrent/lazy/then.hpp:42-172 | For pipelines of any depth the final receiver is called exactly once: uncanceled with what the pipeline denotes, and with a cancelation at any step with that or done. |
| LazyThen.CancelerSlotIsFree | include/tconcurrent/lazy/cancelation_token.hpp:57-64 | Since every receiver resets the token first, the assertion of set_canceler never fails along a pipeline. |
| LazyThen.CancelReachesSource | include/tconcurrent/lazy/cancelation_token.hpp:39-64 | A cancelation makes a cancelable source at work complete with done, one submitted after it completes so at once, and otherwise it only sets the flag, which is set by nothing else. |
| LazyThen.NoDeadlock | include/tconcurrent/lazy/then.hpp:42-136 | Until the final receiver is called the pipeline can take a step. |
| LazyThen.CanceledFinishes | include/tconcurrent/lazy/then.hpp:42-136 | After a cancelation the number of steps of a run is bounded by a rank of its state, and a run that long has called the final receiver, exactly once. |
| LazyThen.CanceledRunsAgree | include/tconcurrent/lazy/then.hpp:42-136 | From a cancelation on, every finished run delivers the same completion: an error or done on its way, or what a source that cannot be canceled gives the final receiver directly, comes through; a value with a function ahead, and a cancelable source, become done; only a function about to be called still has a say in it. |
| LazyThen.DeliversDenotation | include/tconcurrent/lazy/then.hpp:92-97 | An uncanceled sender that denotes a completion delivers it to whatever receivers it was submitted with. |
| LazyThen.DenotedIsDelivered | include/tconcurrent/lazy/then.hpp:175-205 | Whatever a pipeline denotes, some uncanceled run delivers. |
| LazyThen.UncanceledRunsAgree | include/tconcurrent/lazy/then.hpp:175-205 | And every finished uncanceled run delivers just that. |
| LazyThen.NoCallAfterCancel | include/tconcurrent/lazy/then.hpp:52-58 | In a run after a cancelation at most one step calls a function, and that one only if its receiver had looked at the token before. |
| LazyThen.ThenComposes | include/tconcurrent/lazy/then.hpp:175-182 | Two thens in a row denote what one then of the composed functions denotes. |
| LazyThen.DenotesMapped | include/tconcurrent/lazy/then.hpp:42-79 | then denotes errors and done of its sender, or the value its function returns or the error it throws on its sender's value, in both directions. |
| LazyThen.DenotesBound | include/tconcurrent/lazy/then.hpp:100-153 | async_then denotes the bind of senders: errors and done of the first, or what its function submits or throws on its value, in both directions. |
| LazyThen.DenotesConnected | include/tconcurrent/lazy/then.hpp:155-205 | connect denotes errors and done of the first sender, or what the second one, given the first one's value, completes with. |
| LazyThen.ConnectAssociates | include/tconcurrent/lazy/then.hpp:197-205 | Connecting senders is associative. |
| LazyThen.Pipeline.SubmitChain | include/tconcurrent/lazy/then.hpp:92-152 | Submitting a chain is a run that wraps the receiver once for each stage down to the source. |
| LazyThen.Pipeline.Complete | include/tconcurrent/lazy/then.hpp:51-136 | The nested calls that one completion causes are a run to a submission or to one call of the final receiver; errors, done and cancelation skip every function. |
| LazyThen.Pipeline.CallStage | include/tconcurrent/lazy/then.hpp:58-123 | The innermost receiver's function and its catch clause are the machine's step, of whose completions DenotesMapped and DenotesBound speak. |

## Left out

Limits of the models:

- Values: template results are modelled as `int`, a handle or a unit; move-only types, type deduction and `tvoid` are not.
- Memory: all atomics and mutexes are sequentially consistent, and object lifetime is only modelled for coroutine control blocks and await frames.
- PackagedTask.SharedTask.IncrementPromise: takes the number of spurious failures of the weak exchange as a parameter, so it terminates; the machine allows any number.
- PackagedTask: a call nested in another one on the same thread counts as a thread of its own, and `break_cancelation_chain` on a cancelable task (`future.hpp:201-205`, `packaged_task.hpp:111-112`), which makes the later pop hit another token, is excluded.
- Continuations: chain names, `get`, `wait` and `wait_for` are not modelled; `finish` is called once, as PackagedTask shows of tasks.
- CancelationToken: the token pops its top whoever pushed it (`cancelation_token.hpp:68`), so the LIFO results are about scopes that nest; move-assigning an empty `scope_canceler` does not pop (`cancelation_token.hpp:41`, `when.hpp:63`) and the callback `when_all` leaves on its own token that way is not modelled.
- Futures: has no cancelation, so the `is_cancel_requested` branch of `do_and_then_callback` (`future.hpp:372-373`) is only in Semaphore; an inline executor is one of the schedules.
- Unwrap: chains are linear, so an outer callback that throws leaves no inner task of its own on the token, and an inner future on the same token has at most one callback there; `update_chain_name` is not modelled.
- Job: all runs share one token, which decides whether a cancelation hits a posted run; here any posted run may be canceled. The destructor (`job.hpp:27-36`) is the `Stop` action, after which `_future` is null; its wait is not modelled.
- Job.JobScheduler.FulfillAndErase: is the loop when no continuation reenters it; with reentrant triggers the single steps of the machine apply, and the theorems cover them.
- Coroutine: the switch of Boost.Context is a step and the executor a bag of tasks; a cancelation only hits a coroutine that is suspended and off the stack, awaited things complete at most once, and submitting one does not cancel its own coroutine. `assert_not_in_catch`, which ends the program when a coroutine awaits or is canceled inside a catch clause or a destructor that runs during unwinding (`stackful_coroutine.hpp:374`, `384`, `423`, `440`), and the assertion that a canceler runs in the coroutine's executor are not modelled. Sanitizer hooks, `yield` as a special await, exceptions after a resumption and work that is not done when the thread context returns are not modelled.
- PeriodicTask: code that calls `start` and `stop` runs on the task's single-threaded executor; from the end of the callback to the settlement of its chain is one step; a call posted by an immediate start cannot be canceled before it starts, and a request that `stop` makes from inside the callback does not end the call itself; `signal_error` has no effect.
- WhenAny: a cancelation of the result, which goes to all inputs as in `when_all`, is not modelled; the empty range is a ready future in both.
- Semaphore: the queue is seen through the guarantees of ConcurrentQueue, and a continuation does not release the semaphore from inside `push` while the queue's mutex is held, which would deadlock.
- LazyToken: the assertion that no canceler is set is a demand on the caller; LazyThen shows that pipelines meet it.
- LazyThen: receivers do not throw, and sources complete once; the second sender of `connect` is a function of the values it is submitted with.

Not modelled at all:

- Boost.Asio timers and io_context, the thread pool, the executors and the Emscripten port: plumbing over libraries that are not part of this model.
- `stackless_coroutine.hpp`: its behaviour is that of compiler-generated frames.
- `lazy/task_canceler.hpp`: `terminate` iterates a vector that `complete` erases from, so it does not cancel every task as written.
- `barrier`, `stepper`, `future_group`, the future `task_canceler`, `promise`, `sync_wait`, `sink_receiver`: thin wrappers over the parts above, which would only add easy members.
