# A verified model of the completion engine

This project models the part of the repository that runs completion handlers:
the multi-threaded `scheduler`, the edge-triggered `epoll_reactor` it drives,
and what both rest on (the packed-word `event`, `op_queue`, the private queue and
work counter of each thread, `call_stack`, the work guard), and beside it the
get-or-create protocol of `service_registry`. Verify it with
`dafny verify dfyconfig.toml`.

## How it is built

There are two layers over one set of specification functions.

* **Specification functions.** `SchedulerCore` (wake-up, stop, a pass of the loop
  in `do_run_one`, the two clean-up destructors) and `Descriptors` (`start_op`,
  `cancel_ops`, one turn of `perform_io`) say what each section does to the data
  it guards. `Coalescing` and `PerformIo` are the complete loops of
  `epoll_reactor::run` and `perform_io`.
* **Classes.** `Event`, `OpQueue`, `Scheduler`, `DescriptorState`,
  `EpollReactor`, `CallStack`, `ServiceRegistry` and `WorkGuard` change their
  fields in place, with the loops of the source. Each method's `ensures` gives
  the whole new state as a specification function of the old one.
* **State machine.** `Protocol` interleaves the same functions over any number of
  threads, posters and descriptors. A step is one section guarded by the
  scheduler mutex, one atomic update, one `perform()` under a descriptor mutex,
  or one change of the environment. `IsRun` is a run from the initial state. The
  kernel is nondeterministic: readiness rises and falls at any time, an edge
  becomes pending when readiness rises under the registered interest,
  `EPOLL_CTL_ADD` and `EPOLL_CTL_MOD` report current readiness, `epoll_wait`
  must report a pending direction of a descriptor it names if that is still ready
  and may report anything more, condition variables
  wake up spuriously, and a `notify_one` called after the mutex has been released is
  in transit until it arrives.
  `perform()` returns `not_done` iff the direction is not ready, and after
  `done_and_exhausted` it is not ready.

The invariant is split by subject: `WakeUps`/`WakeSteps` (wake-ups, stop, event
word, reactor exclusivity), `LocalQueues` (what private queues hold), `Scans` (who
is in `perform_io`), `Accounting`/`AccountingSteps` (conservation and the work
equation), `DescriptorInvariant` (order of performs, shut-down descriptors),
`Exhaustion` (what the counter means). `Runs` puts them together and states the
theorems about every state of every run. Three modules prove theorems about whole
histories on top of it: `EdgeRuns` (which steps lose a readiness edge, from
`Readiness`/`ReadinessSteps`), `Submissions` (what a descriptor performs is what it
accepted), `Harvests` (the events `perform_io` acts on). Six say exactly what each
step does to the fields: `StartOps`, `Deregistration`, `CommonQueue` (first in, first
out), `PrivateQueues`, `Changes` (who is stopped, notified, interrupted or moved) and
`Kernel` (what epoll is asked and reports). `Progress` shows that nobody is stuck.
`Sequential` shows that the class methods `work_cleanup`, the posts, `start_op`,
`cancel_ops`, `deregister_descriptor` and `perform_io` are the machine's steps run
without interference. `Drain` proves total correctness of `run` for one thread, and
that the private queue refines the shared one. `Deviations` says what goes wrong where
the text of the source departs from its evident intent or ignores a result, and
`Scenarios` gives concrete runs from the initial state in which it does.

## Where the source departs from its intent

The model follows the evident intent in these places; each has a comment.

* `scheduler.cc:52-56` leaves members unset: the start state is no task,
  `task_interrupted_` true, no work, not stopped, not shut down.
* `scheduler.cc:42` and `:99` lock a mutex that may be held: "lock if not held".
* `scheduler.cc:137` reads `task_result_` after the unlock: the read is part of
  the section that pops. `LateReadSeesLaterReport` says what a late read misses, and
  `LateReadLosesAnEvent` is a run in which it does.
* `scheduler.cc:219` splices in the wrong direction. `LiteralSpliceLosesOperations`
  counts what that loses, and `LiteralSpliceLosesARead` is a run that reaches it.
* `scheduler.cc:248` tests `&task_interrupted_`, always true. `guardedWake`
  selects the reading, and every theorem holds for both.
* `epoll_reactor.cc:205` masks with `&=`: modelled as `|=`; line 208 is followed
  as it stands (it asks for `EPOLLOUT` without recording it).
  `LiteralMaskLosesReads` gives the exact effect of the literal mask, and
  `LiteralMaskLosesAnEdge` a run that reaches it with a read queued.
* `epoll_reactor.cc:210` ignores the result of `epoll_ctl`, and `:186` trusts the
  interest recorded then. Both are modelled as they are: `EdgesLostExactly` says
  which steps lose a readiness edge, `IgnoredControlFailure` what each start_op that
  queues leaves on its way, and `TrustedInterestLosesAnEdge` is a run in which one
  failed call costs a later write its event.
* `epoll_reactor.cc:213-214` queues before it charges. This is modelled as it is:
  in between, a completed handler or a released guard can bring the counter to zero
  with that one operation queued. `CounterZeroIsExact`, `WorkFinishedIsExact` and
  `GuardFinishedIsExact` name the exception, and `StopsBeforeTheCharge` is a run that
  reaches it.
* `scheduler.hpp:38-39` decrements and then calls `stop()`, which takes the mutex.
  This too is modelled as it is: what comes in between is left behind by the stop.
  `StopLeavesNothing` is exact, and `StopsAfterAPost` and `StopsAfterAPostForAGuard`
  are runs in which something is.
* `epoll_reactor.cc:355` pops a possibly empty queue: nothing is removed.
* `epoll_reactor.cc:130` queues an operation that is never charged.
  `InternalOperationIsUncharged`.
* `op_queue.hpp:21-23` never pops its source: here it does.
* `executor_work_guard.hpp:44-49` leaves `owns_` set: here `Reset` clears it.
  `GuardsAreCounted` covers both readings and says exactly when the count is kept.

## Model

| member | source | states |
|---|---|---|
| Runs.InvHolds | boost_asio/scheduler.cc:85-149 | the combined invariant of scheduler, reactor and descriptors holds in every state of every run, for any number of threads |
| Runs.NoLostWakeUpHolds | boost_asio/scheduler.cc:107-149 | not stopped with work queued: some thread inside run() is not blocked, or a notify_one is in transit to one that waits; and unless one_thread_ a waiting thread implies a notified one or a notify_one in transit |
| Runs.StopReachesEveryone | boost_asio/scheduler.cc:235-243 | from a stop until the next restart the signalled bit stays set, no thread waits, and none is blocked in the reactor without an interrupt pending |
| Runs.EventWordRefines | boost_asio/event.hpp:16-64 | state_ is twice the number of threads with a live waiter object plus the flag, and the test state_ > 1 finds a waiter iff there is one |
| Runs.ReactorIsExclusive | boost_asio/scheduler.cc:75-83 | once the task is set, either task_operation_ is queued exactly once and nobody is in the reactor, or it is not queued and exactly one thread is |
| Runs.EnqueuedLocallyIffGlobally | boost_asio/epoll_reactor.cc:68-73 | while a thread is in the reactor, a descriptor is in that thread's private queue iff it is in any scheduler queue, and that queue has no duplicates |
| Runs.ExactlyOnce | boost_asio/scheduler.cc:183-227 | every submitted operation is in exactly one queue, hand, start_op or post and not completed, or nowhere and completed once; nothing else is anywhere |
| Runs.WorkIsAccounted | boost_asio/scheduler.cc:31-45 | outstanding_work_ plus all private work equals guards plus operations held, less those inside a start_op that has not yet charged for them, plus the units of completed operations and empty perform_io calls not yet given back |
| Runs.WorkFinishedIsExact | boost_asio/scheduler.hpp:36-41 | work_finished finds the counter positive and calls for a stop iff there is at that moment no guard, no user operation in any shared, private or descriptor queue or post, and no other thread with one, except one that its start_op has queued and not yet charged; the queues are all empty iff there is none such |
| Runs.GuardFinishedIsExact | boost_asio/executor_work_guard.hpp:35-40 | the release of a guard finds the counter positive and calls for a stop iff nothing at all is left, with the same exception |
| Runs.CounterZeroIsExact | boost_asio/scheduler.hpp:34-41 | in every state of every run the counter is zero iff nothing is left, with the same exception |
| Runs.StopLeavesNothing | boost_asio/scheduler.hpp:36-41 | the stop called for, by a handler's thread or a guard, stops and leaves nobody blocked, and leaves nothing behind iff the counter is still zero when it is taken |
| Runs.NeverUnderflows | boost_asio/scheduler.hpp:34-41 | the counter is never negative |
| EdgeRuns.EdgesLostExactly | boost_asio/epoll_reactor.cc:147-215 | up to any state of any run no edge of a direction is lost iff no step was an ignored EPOLL_CTL_MOD failure on that ready direction, or a rise in it that epoll had not been asked about, with nothing on its way |
| EdgeRuns.NoLostEdgeHolds | boost_asio/epoll_reactor.cc:330-357 | an operation queued on a ready direction has an event pending in epoll, in task_result_ of a queued descriptor, or with a thread about to act on it, unless an epoll_ctl for that direction failed and was ignored and none has succeeded for the descriptor since |
| EdgeRuns.NoLostEdgeBeforeQueueing | boost_asio/epoll_reactor.cc:163-215 | the same for a registered, ready direction with nothing queued once try_speculative_ is off |
| Submissions.LogIsAccepted | boost_asio/epoll_reactor.cc:336-352 | what a descriptor has performed in a direction followed by what it has queued there is at all times the list of its accepted, uncancelled submissions for that direction, in order |
| Submissions.PerformedInOrder | boost_asio/epoll_reactor.cc:163-177 | the performed operations are a prefix of the accepted ones, which are in the order of submission |
| Submissions.OnlyItsOwn | boost_asio/epoll_reactor.cc:147-215 | everything a descriptor accepts in a direction was submitted by a start_op for that descriptor and direction |
| Submissions.SubmittedOnce | boost_asio/epoll_reactor.cc:147-149 | no operation is submitted to two descriptors or directions |
| Runs.PerformedOnlyGrows | boost_asio/epoll_reactor.cc:163-177 | what has been performed stays performed in the same order |
| Runs.ShutDownStaysEmpty | boost_asio/epoll_reactor.cc:236-269 | a descriptor once shut down has three empty queues in every later state |
| Deregistration.DeregisteredForGood | boost_asio/epoll_reactor.cc:158-160 | from any deregister_descriptor on, the descriptor is shut down and its queues are empty, and every later start_op on it hands its operation straight to the scheduler: nothing is queued, performed or asked of epoll |
| CommonQueue.FirstInFirstOut | boost_asio/scheduler.cc:110-147 | what has been taken from op_queue_ followed by what is in it is in every state of every run all that posts, task_cleanup, work_cleanup and init_task have put there, in that order |
| StartOps.StartOpIsAtomic | boost_asio/epoll_reactor.cc:157-214 | whatever others do while a start_op holds the mutex of its descriptor, it leaves the descriptor and its operation as an uninterrupted start_op does |
| Progress.NobodyIsStuck | boost_asio/scheduler.cc:107-149 | in every state of every run a thread can take its next step, unless it waits for a notification or for a descriptor's mutex; that mutex its holder can release, and then the thread goes on |
| WakeUps.WakeOneKeeps | boost_asio/scheduler.cc:245-254 | whatever has been queued, waking a waiter or else interrupting the reactor re-establishes the wake-up invariant, for both readings of the test |
| WakeUps.PushKeeps | boost_asio/scheduler.cc:215-227 | a post of any batch loses no wake-up |
| WakeUps.LoopKeeps | boost_asio/scheduler.cc:110-147 | a pass of the loop passes the signal on or blocks only on an empty queue, so no wake-up is lost |
| WakeUps.FinishTaskKeeps | boost_asio/scheduler.cc:13-24 | returning from the reactor and going straight on keeps the wake-up invariant |
| WakeUps.ResumeKeeps | boost_asio/event.hpp:57-64 | a thread back from the condition variable, notified or spuriously, keeps it |
| WakeUps.StopKeeps | boost_asio/scheduler.cc:235-243 | stop_all_threads wakes every waiter and interrupts a blocked reactor |
| WakeUps.ArriveKeeps | boost_asio/event.hpp:26-48 | a notify_one that arrives, after the mutex has been released, wakes a waiting thread and is spent only if there is none |
| WakeUps.StartTaskKeeps | boost_asio/scheduler.cc:75-83 | init_task, however often it is called, keeps the wake-up invariant and exclusivity |
| WakeSteps.WakeStep | boost_asio/scheduler.cc:107-254 | every step of the machine keeps the wake-up invariant |
| LocalQueues.LocalIsGlobal | boost_asio/scheduler.cc:114-127 | for the thread in the reactor, private membership is membership in any queue of the scheduler |
| LocalQueues.QueuedOnce | boost_asio/epoll_reactor.cc:68-73 | no descriptor operation is in two places of the scheduler's queues |
| LocalQueues.LocalStep | boost_asio/scheduler.cc:13-24 | every step keeps descriptor operations in front of task_operation_ and private queues in shape |
| Scans.ScansStep | boost_asio/epoll_reactor.cc:330-338 | a descriptor's mutex is held by a thread exactly while it is in perform_io on it, and speculation is on in the direction it is in |
| AccountingSteps.HeldStep | boost_asio/scheduler.cc:169-227 | every step changes how often an operation is held by exactly its submission or completion |
| AccountingSteps.LedgerStep | boost_asio/scheduler.cc:31-45 | every step changes the counters by exactly what it submits or completes |
| AccountingSteps.LedgerEndScan | boost_asio/epoll_reactor.cc:308-324 | at the end of perform_io the counters still balance: compensating_work_started exactly offsets the unit an empty one gives back |
| StartOps.StartWholeExactly | boost_asio/epoll_reactor.cc:157-214 | an operation is performed iff its queue is empty, it may speculate, speculation is on and it is ready; it is completed unperformed iff the descriptor is shut down, or its queue is empty and epoll does not know the descriptor or refuses a write its interest; otherwise it joins its queue; with the exact interest asked for and recorded |
| StartOps.StartOpExactly | boost_asio/epoll_reactor.cc:157-177 | the same for the first step of a start_op in a run, with where the operation goes and nothing else changed |
| StartOps.FinishStartExactly | boost_asio/epoll_reactor.cc:179-214 | and for its second step |
| Deregistration.DeregisterExactly | boost_asio/epoll_reactor.cc:243-268 | the first deregistration shuts the descriptor down, posts what was queued, reads first and out-of-band operations last, and stops epoll watching iff it is not closing and epoll knows it; any further one changes nothing |
| Deregistration.CancelExactly | boost_asio/epoll_reactor.cc:222-233 | cancelling posts the same operations in the same order, empties the queues, and changes nothing else |
| CommonQueue.QueueStep | boost_asio/scheduler.cc:110-147 | every step appends what it brings at the end of op_queue_ and takes at most one operation, the first; a handler is executed, a descriptor performed with its task_result_, and the task polled, blocking iff nothing else is queued; a pass that takes nothing leaves if stopped and waits otherwise |
| PrivateQueues.PrivateExactly | boost_asio/scheduler.cc:183-227 | what a post keeps to its thread goes to the end of the private queue with one private unit, deferred posts bring none, an empty perform_io brings one, and only the clean-up destructors empty either |
| Changes.SignalsExactly | boost_asio/scheduler.cc:235-254 | a step stops the scheduler, calls notify_one or interrupts the reactor exactly when it should: a push, or a thread that leaves work behind, notifies iff somebody else waits; a push interrupts iff nobody does, a stop unless one is on its way |
| Changes.OthersStayExactly | boost_asio/event.hpp:16-48 | no step moves another thread, but a stop wakes every waiting one and an arriving notify_one the one it picks |
| Changes.StageExactly | boost_asio/epoll_reactor.cc:308-324 | where its own steps take a thread: the first operation performed is executed, the others posted, with none it compensates; a stop follows exactly a counter at zero |
| Changes.GuardsExactly | boost_asio/executor_work_guard.hpp:16-40 | guards are counted while owned; the release that finds the counter at zero, and no other, leads to one stop |
| Kernel.SocketExactly | boost_asio/epoll_reactor.cc:185-211 | epoll's interest changes exactly in a successful EPOLL_CTL_MOD and in the removal, an edge is pending from a rise under the interest, or from asking while ready, until it is reported or the descriptor removed |
| Kernel.RegisterExactly | boost_asio/epoll_reactor.cc:92-118 | a registered descriptor is empty and speculative, asks epoll about reading, priority data, errors and hang-ups, and is unknown to it exactly after EPERM |
| Progress.MutexIsReleased | boost_asio/epoll_reactor.cc:157-214 | whoever holds a descriptor's mutex, in start_op or in perform_io, reaches its release by steps of its own, all of them enabled |
| Progress.CallsAreOpen | boost_asio/scheduler.cc:151-227 | posts, registrations, stops, restarts, guards and init_task are possible in every state |
| Progress.ArrivalsAreOpen | boost_asio/scheduler.cc:188-196 | and so is the arrival of whatever is under way |
| Progress.DescriptorIsOpen | boost_asio/epoll_reactor.cc:147-269 | start_op, cancel_ops and deregister_descriptor go ahead whenever the mutex is free, and a pending edge can be reported |
| Accounting.StartBeginLoad | boost_asio/epoll_reactor.cc:157-177 | start_op, up to the speculative perform, queues the operation exactly when it reports it queued |
| Accounting.StartFinishLoad | boost_asio/epoll_reactor.cc:179-215 | every later branch of start_op puts the operation in the queue, or completes it and leaves the queues alone |
| Accounting.CancelLoad | boost_asio/epoll_reactor.cc:224-233 | the cancelled batch holds each queued operation as often as the descriptor did |
| Exhaustion.CounterEquation | boost_asio/scheduler.cc:33-45 | the counter is guards plus operations in the shared queue, posts and, once charged, descriptor queues, plus each thread's net account |
| Exhaustion.ExhaustionIsExact | boost_asio/scheduler.hpp:36-41 | giving back a unit reaches zero iff nothing else is left to do but operations queued and not yet charged |
| Exhaustion.GuardReleaseIsExact | boost_asio/executor_work_guard.hpp:35-40 | releasing a guard finds the counter positive and reaches zero iff nothing is left, with the same exception |
| Exhaustion.NeverThroughZero | boost_asio/scheduler.cc:33-40 | while a handler runs the counter is positive, before and after the private work is added, so it never passes through zero |
| Readiness.FlightLoop | boost_asio/scheduler.cc:114-138 | popping a descriptor operation hands its events to the thread that popped it |
| ReadinessSteps.ReportReaches | boost_asio/epoll_reactor.cc:57-75 | an edge consumed by epoll_wait reaches task_result_ of a queued descriptor |
| ReadinessSteps.ScanStepEdge | boost_asio/epoll_reactor.cc:337-352 | after a turn of perform_io no direction behind it needs an event unless it already did before |
| ReadinessSteps.EdgeStep | boost_asio/epoll_reactor.cc:147-215 | an edge that is not lost stays so in every step but those named |
| ReadinessSteps.LosingStepLoses | boost_asio/epoll_reactor.cc:203-214 | each step named does lose the edge |
| ReadinessSteps.DeafenedStep | boost_asio/epoll_reactor.cc:185-211 | a direction loses edges only after an ignored failure, and a successful EPOLL_CTL_MOD mends every direction of its descriptor |
| DescriptorInvariant.ScanStepLog | boost_asio/epoll_reactor.cc:339-350 | a turn of perform_io leaves the log of performed then queued operations unchanged |
| DescriptorInvariant.StartBeginFifo | boost_asio/epoll_reactor.cc:163-177 | a speculative perform never overtakes a queued operation |
| DescriptorInvariant.DescsStep | boost_asio/epoll_reactor.cc:147-295 | every step keeps order of submission, emptiness after shutdown, and the recorded interest of what is queued |
| Sequential.WorkCleanupIsItsSteps | boost_asio/scheduler.cc:33-45 | the class method for work_cleanup is the machine's four steps with nobody in between, in queue, counter, stop and notifications |
| Sequential.PostIsItsSteps | boost_asio/scheduler.cc:183-197 | post_immediate_completion is the machine's charge followed by its push, or its private path |
| Sequential.StartOpIsItsSteps | boost_asio/epoll_reactor.cc:147-215 | start_op is the speculative attempt, the placing and the charge, with one operation queued and one unit charged, or posted |
| Sequential.PerformIoIsItsSteps | boost_asio/epoll_reactor.cc:308-357 | perform_io is the machine's turns to the end: the complete scan, the first operation executed, the rest posted, or one compensating unit |
| Sequential.CancelIsItsStep | boost_asio/epoll_reactor.cc:222-233 | what the class method leaves and returns is what the machine's step leaves and posts |
| Sequential.DeregisterIsItsStep | boost_asio/epoll_reactor.cc:243-268 | the same for deregister_descriptor, and what it takes out of epoll is no longer watched |
| EventWord.PackIsInjective | boost_asio/event.hpp:77-87 | the packed word determines the flag and the waiter count |
| EventWord.WordOperationsRefine | boost_asio/event.hpp:16-64 | each word operation modulo 2^64 is the operation on (flag, count), and state_ > 1 after setting the bit iff there is a waiter |
| EventWord.Event.SignalAll | boost_asio/event.hpp:16-22 | sets the flag, keeps the waiters, notifies all |
| EventWord.Event.UnlockAndSignalOne | boost_asio/event.hpp:26-35 | sets the flag and notifies one iff somebody waits |
| EventWord.Event.MaybeUnlockAndSignalOne | boost_asio/event.hpp:37-48 | the same, and unlocks iff somebody waits |
| EventWord.Event.Clear | boost_asio/event.hpp:50-55 | clears the flag and keeps the waiters |
| EventWord.Event.BeginWait | boost_asio/event.hpp:57-62 | the waiter constructor: one more waiter |
| EventWord.Event.EndWait | boost_asio/event.hpp:60-64 | the waiter destructor and loop test: one fewer waiter, done iff the flag is set |
| OpQueues.OpQueue.PushAll | boost_asio/op_queue.hpp:16 | splice: contents appended, source emptied |
| OpQueues.OpQueue.PushConverted | boost_asio/op_queue.hpp:18-24 | the cross-type push moves every element, in order, and empties its source |
| OpQueues.OpQueue.Front | boost_asio/op_queue.hpp:26 | the first element, none on empty |
| OpQueues.OpQueue.Back | boost_asio/op_queue.hpp:28 | the last element, none on empty |
| OpQueues.OpQueue.IsEnqueued | boost_asio/op_queue.hpp:30 | true iff the element is in the queue |
| SchedulerClass.Scheduler.constructor | boost_asio/scheduler.cc:52-56 | the start state its code relies on |
| SchedulerClass.Scheduler.WakeOneThreadAndUnlock | boost_asio/scheduler.cc:245-254 | the wake-up section: flag set, one waiter notified or the reactor interrupted |
| SchedulerClass.Scheduler.StopAllThreads | boost_asio/scheduler.cc:235-243 | stopped and signalled, all notified, an uninterrupted task interrupted |
| SchedulerClass.Scheduler.InitTask | boost_asio/scheduler.cc:75-83 | queues the task once, and only before shutdown |
| SchedulerClass.Scheduler.Restart | boost_asio/scheduler.cc:163-167 | clears stopped_ and nothing else |
| SchedulerClass.Scheduler.WorkFinished | boost_asio/scheduler.hpp:36-41 | one unit fewer; zero stops the scheduler |
| SchedulerClass.Scheduler.CompensatingWorkStarted | boost_asio/scheduler.cc:169-173 | one more private unit |
| SchedulerClass.Scheduler.DoDispatch | boost_asio/scheduler.cc:175-181 | charged, queued last, one thread woken |
| SchedulerClass.Scheduler.PostImmediateCompletion | boost_asio/scheduler.cc:183-197 | charged and queued in one place, private or common, the other untouched |
| SchedulerClass.Scheduler.PostDeferredCompletion | boost_asio/scheduler.cc:199-213 | queued in one place and not charged again |
| SchedulerClass.Scheduler.PostDeferredCompletions | boost_asio/scheduler.cc:215-227 | the whole batch moves to one queue, in order, and leaves its source empty |
| SchedulerClass.Scheduler.AbandonOperations | boost_asio/scheduler.cc:229-233 | empties the batch, all of it |
| SchedulerClass.Scheduler.Turn | boost_asio/scheduler.cc:110-147 | one pass of the loop: leave, block, poll or execute, with the signal passed on |
| SchedulerClass.Scheduler.TaskCleanup | boost_asio/scheduler.cc:13-24 | private work added, then what was queued, the harvest, and the task last |
| SchedulerClass.Scheduler.WorkCleanup | boost_asio/scheduler.cc:33-45 | private work added before the unit is given back, private queue spliced, stop exactly at zero |
| SchedulerClass.Scheduler.Shutdown | boost_asio/scheduler.cc:60-73 | empties the queue, destroying all but the task operation in order |
| SchedulerClass.WithoutTaskSpec | boost_asio/scheduler.cc:66-71 | each operation but the task is destroyed as often as it was queued, and the task never |
| SchedulerClass.WithoutTaskInOrder | boost_asio/scheduler.cc:66-71 | each is destroyed after exactly those queued in front of it |
| Destruction.ShutdownDestroysOnce | boost_asio/scheduler.cc:60-73 | whatever state of any run shutdown finds, it destroys an operation at most once, and none that is completed or held anywhere else |
| Coalescing.GatherLosesNothing | boost_asio/epoll_reactor.cc:60-75 | the descriptors queued are exactly those reported, once each, and task_result_ is exactly the union of their reports |
| Coalescing.GatherKeepsOrder | boost_asio/epoll_reactor.cc:68-70 | descriptors are queued in the order of their first reports |
| Harvests.ResultIsLastHarvest | boost_asio/epoll_reactor.cc:60-75 | in every run task_result_ is the union of all the reports of the harvest that last reported the descriptor |
| Harvests.QueuedResultStays | boost_asio/scheduler.cc:114-127 | while a descriptor is in the shared queue no report is absorbed and its task_result_ stays as it is |
| Harvests.PerformIoGetsTheHarvest | boost_asio/epoll_reactor.cc:359-369 | the events a thread acts on, from the pop of a descriptor to the end of perform_io, are that whole union |
| PerformIo.TakenStops | boost_asio/epoll_reactor.cc:339-350 | the prefix taken is done operations, exhausted at most at its end, and stops only at the end of the queue or of readiness |
| PerformIo.ScanDirection | boost_asio/epoll_reactor.cc:337-352 | the inner loop, step by step, is the removal of that prefix |
| PerformIo.PerformIoSplits | boost_asio/epoll_reactor.cc:330-357 | each selected queue is split into performed prefix and untouched suffix, others left alone, results in the order except, write, read |
| PerformIo.PerformIoByFlags | boost_asio/epoll_reactor.cc:335-352 | EPOLLERR or EPOLLHUP serves all three queues; otherwise EPOLLIN the reads, EPOLLOUT the writes, EPOLLPRI the out-of-band operations, and no other |
| PerformIo.PerformIoReturns | boost_asio/epoll_reactor.cc:341-356 | what is handed back is exactly what has been performed, out-of-band first and reads last |
| PerformIo.SelectedQueuesDrain | boost_asio/epoll_reactor.cc:339-350 | each selected queue ends empty, or blocked, or exhausted with speculation off |
| DescriptorStateClass.DescriptorState.constructor | boost_asio/epoll_reactor.cc:92-118 | a registered descriptor: empty queues, speculation on, interest by the outcome of EPOLL_CTL_ADD |
| DescriptorStateClass.DescriptorState.SetReadyEvents | boost_asio/epoll_reactor.hpp:40 | the events replace task_result_ |
| DescriptorStateClass.DescriptorState.AddReadyEvents | boost_asio/epoll_reactor.hpp:41 | the events are added to task_result_ |
| DescriptorStateClass.DescriptorState.StartOp | boost_asio/epoll_reactor.cc:147-215 | every branch: performed, refused, or queued, with the interest asked of epoll |
| DescriptorStateClass.DescriptorState.FinishStart | boost_asio/epoll_reactor.cc:179-214 | the branches after the speculative attempt, in place |
| DescriptorStateClass.DescriptorState.CancelOps | boost_asio/epoll_reactor.cc:217-234 | empties the three queues and returns read, write, except operations in order |
| DescriptorStateClass.DescriptorState.Deregister | boost_asio/epoll_reactor.cc:236-269 | cancels and shuts down once; afterwards only clears the caller's pointer |
| DescriptorStateClass.DescriptorState.PerformQueue | boost_asio/epoll_reactor.cc:339-350 | the inner loop in place is the specification's scan of that direction |
| DescriptorStateClass.DescriptorState.PerformIo | boost_asio/epoll_reactor.cc:330-357 | the nested loops in place are the complete scan, each queue served iff its flags, an error or a hang-up are among the events: first operation returned, rest to be posted |
| DescriptorStateClass.EpollReactor.Run | boost_asio/epoll_reactor.cc:50-76 | the event loop in place is the coalescing of the list of reports |
| Drain.ServedIsLevelOrder | boost_asio/scheduler.cc:110-140 | serving a queue that takes each handler's posts at its end is level order of the post forest |
| Drain.LevelsComplete | boost_asio/scheduler.cc:99-104 | level order lists every handler of the forest exactly once |
| Drain.LevelsLength | boost_asio/scheduler.cc:98-104 | and their number is the size of the forest |
| Drain.PrivateQueueRefinesShared | boost_asio/scheduler.cc:183-197 | the private queue completes the forest as the shared queue would with each handler's continuations moved behind its other posts |
| Drain.FastPathIsTransparent | boost_asio/scheduler.cc:183-197 | posts split between the two queues complete in the order of posts through one if, and with distinct identifiers only if, every handler makes its posts with the continuations last |
| Drain.NoContinuationsInOrder | boost_asio/io_context.hpp:107-127 | in particular where everything is posted or dispatched and nothing deferred |
| Drain.Complete | boost_asio/scheduler.cc:183-197 | a handler's posts reach the two queues in order, each charged where it is queued |
| Drain.DoRunOne | boost_asio/scheduler.cc:107-149 | leaves or executes the front handler, so never blocks, appends its posts, and stops exactly when the queue is empty |
| Drain.Run | boost_asio/scheduler.cc:85-105 | terminates, completes the forest in level order, returns its size, or the largest size_t if that is less, and ends stopped with no work |
| ServiceRegistries.ServiceRegistry.HasService | boost_asio/service_registry.hpp:93-99 | true iff the key is set |
| ServiceRegistries.ServiceRegistry.AddService | boost_asio/service_registry.hpp:81-91 | sets a free key |
| ServiceRegistries.ServiceRegistry.UseService | boost_asio/service_registry.hpp:39-58 | returns the registered instance whatever others published meanwhile, frees its own if it lost, changes no entry |
| ServiceRegistries.InvHolds | boost_asio/service_registry.hpp:39-79 | in every interleaving with nested calls each instance is under construction, registered under one key, or freed once |
| ServiceRegistries.EntriesNeverChange | boost_asio/service_registry.hpp:54-56 | an entry once set never changes |
| ServiceRegistries.CallersAgree | boost_asio/service_registry.hpp:39-79 | all callers of a key get the same instance, which is registered and never freed |
| ServiceRegistries.LosersFreedOnce | boost_asio/service_registry.hpp:49-57 | with no call under way every instance is registered and not freed, or freed exactly once |
| ServiceRegistries.UseServiceIsItsSteps | boost_asio/service_registry.hpp:39-58 | the class method is the machine's two looks with the publications of others in between |
| ServiceRegistries.FoundOnceRegistered | boost_asio/service_registry.hpp:41-46 | once a key has an entry, the first look of every later call returns it and nothing is constructed |
| CallStacks.InnermostSpec | boost_asio/call_stack.hpp:49-57 | the lookup finds the innermost frame with the key and fails only if there is none |
| CallStacks.PushShadowsOneKey | boost_asio/call_stack.hpp:23-28 | entering a context changes the lookup of its own key only |
| CallStacks.Search | boost_asio/call_stack.hpp:49-57 | the loop over the chain is that lookup |
| CallStacks.Context.NextByKey | boost_asio/call_stack.hpp:30-38 | the innermost enclosing frame with the same key |
| CallStacks.CallStack.Push | boost_asio/call_stack.hpp:23-26 | a context's constructor adds the innermost frame |
| CallStacks.CallStack.Pop | boost_asio/call_stack.hpp:28 | its destructor restores the frames before it |
| CallStacks.CallStack.Contains | boost_asio/call_stack.hpp:49-57 | the innermost value for the key |
| CallStacks.CallStack.TopValue | boost_asio/call_stack.hpp:59 | the innermost value, none on empty |
| WorkGuards.WorkGuard.constructor | boost_asio/executor_work_guard.hpp:16-19 | owns, and counts one unit |
| WorkGuards.WorkGuard.Copy | boost_asio/executor_work_guard.hpp:21-27 | counts one more unit iff the original owns |
| WorkGuards.WorkGuard.Move | boost_asio/executor_work_guard.hpp:29-33 | takes the unit over, the counter unchanged |
| WorkGuards.WorkGuard.Destroy | boost_asio/executor_work_guard.hpp:35-40 | gives the unit back iff it owns |
| WorkGuards.WorkGuard.Reset | boost_asio/executor_work_guard.hpp:44-49 | gives the unit back iff it owns, and then owns nothing |
| WorkGuards.GuardsAreCounted | boost_asio/executor_work_guard.hpp:16-49 | an action keeps the counter equal to the owning guards iff it is not the literal reset of an owning guard |
| WorkGuards.CounterIsOwners | boost_asio/executor_work_guard.hpp:16-49 | over every history the counter is the number of owning guards |
| Deviations.IgnoredControlFailure | boost_asio/epoll_reactor.cc:179-214 | whichever branch queues an operation, it has an event on its way iff an EPOLL_CTL_MOD was made and succeeded or one was on its way already, and the next rise is reported iff epoll has been asked about the direction |
| Deviations.LiteralMaskLosesReads | boost_asio/epoll_reactor.cc:204-210 | after the literal mask the next rise of a direction has an event on its way iff the direction is writing or one was on its way already |
| Deviations.LateReadSeesLaterReport | boost_asio/scheduler.cc:137 | read after the unlock, task_result_ keeps a direction the thread was handed iff the next harvest does not report the descriptor or some report of it selects the direction |
| Deviations.LiteralSpliceLosesOperations | boost_asio/scheduler.cc:215-227 | the literal splice drops every operation of the batch and of the private queue; the intended one drops none |
| Deviations.InternalOperationIsUncharged | boost_asio/epoll_reactor.cc:120-145 | an internal descriptor's operation is conserved but leaves the counters one short |
| Scenarios.TrustedInterestLosesAnEdge | boost_asio/epoll_reactor.cc:185-211 | a run in which one failed EPOLL_CTL_MOD costs a later write, which asks for nothing, its event |
| Scenarios.LiteralMaskLosesAnEdge | boost_asio/epoll_reactor.cc:204-210 | a run to a write that may not speculate, with a read queued, after whose literal mask the readable socket has no event on its way |
| Scenarios.StopsBeforeTheCharge | boost_asio/epoll_reactor.cc:213-214 | a run in which the counter reaches zero with a read queued and not yet charged |
| Scenarios.StopsAfterAPost | boost_asio/scheduler.hpp:38-39 | a run in which an operation is posted between the decrement to zero and the stop, which leaves it queued |
| Scenarios.StopsAfterAPostForAGuard | boost_asio/scheduler.hpp:38-39 | the same for the release of the last guard |
| Scenarios.WaitsForTheNotice | boost_asio/event.hpp:43-44 | a run in which everybody in run() waits with an operation queued, but for the notify_one in transit |
| Scenarios.LiteralSpliceLosesARead | boost_asio/scheduler.cc:219 | a run to a cancellation whose literal splice leaves neither the cancelled read nor an earlier post anywhere |
| Scenarios.LateReadLosesAnEvent | boost_asio/scheduler.cc:137 | a run in which a thread that reads task_result_ late no longer finds the direction it was handed |

## Left out

- Runs.EventWordRefines: for fewer than 2^62 threads, so that the waiter count fits the word; no machine comes near.
- EdgeRuns.NoLostEdgeHolds: not for a direction in which an epoll_ctl has failed unnoticed and none has succeeded since, because the code queues regardless; EdgeRuns.EdgesLostExactly names the exact steps.
- Runs.WorkFinishedIsExact: with the exception of an operation queued and not yet charged, which is the code's, and at the moment of the decrement; Runs.StopLeavesNothing says what the stop finds.
- Runs.NeverUnderflows: `outstanding_work_` is an unbounded integer; that it stays below 2^64 is not shown.
- Drain.Run: takes no exception from a handler and no nested `run`; a handler is a finite tree of posts.
- SchedulerClass.Scheduler.Shutdown: sequential, with no thread in `run`; it is not a step of the machine, and neither is `epoll_reactor::shutdown`, which deletes descriptors others may hold.
- Deviations.InternalOperationIsUncharged: internal descriptors are not steps of the machine, because their operations break the work equation; `deregister_internal_descriptor` otherwise acts as `deregister_descriptor`.
- A null `descriptor_data`: `start_op` then only posts its operation, which is the machine's `Post`; the other calls do nothing.
- Granularity: `work_started` of a post is one step with what precedes it in the post, and in `start_op` with the perform() that completed the operation; `epoll_wait`, which consumes the edges, is one step with the unlocked loop that writes task_result_ and fills the private queue; the private work that `task_cleanup` adds before it locks (always none) is one step with its section; the read of `outstanding_work_` in `run` is one step with the `stop` it leads to, which the machine may also take later.
- Program order inside a handler: the push of a post may be made by the machine at any time after its charge; the theorems hold a fortiori for the order of the source.
- The pointer `thread_call_stack::contains` returns is the parameter `caller`; CallStacks models the lookup itself.
- Real epoll, the interrupter's descriptor, condition variables and memory fences: the environment above. `wait_for_usec` has no caller.
- Error codes, byte counts and what a handler does besides posting, starting and cancelling operations.
- Sockets, addresses, buffers, templates, handler allocation, thread creation, `system_context`, `main.cc`: wrappers and plumbing.
- `shutdown_services` and `destroy_services`: single-threaded walks over the registry. Service keys and instances are numbers.
