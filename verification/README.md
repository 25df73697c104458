# A verified model of the fiberize runtime

Fiberize runs microthreads (fibers, actors, futures) on work-stealing schedulers and gives them
events, mutexes, conditions, promises and asynchronous IO.  Its correctness rests on hand-written
protocols: a `scheduled` flag and two counters decide whether a task may sleep, tickets decide who
owns which slot of a wait queue, and several reference counts decide when things are deleted.  This
project models those protocols in Dafny and proves what they are for.

`dafny verify dfyconfig.toml` checks everything.

## How it is organised

Concurrency is modelled by state machines whose steps are critical sections (and single atomics) in
any interleaving; a run is any sequence of enabled steps from the initial state, and theorems about
`Reachable` states hold after every run, for any number of tasks and schedulers.  Sequential code is
modelled by classes that update their fields in place.  They are tied to the machines: the contract
of a method names the step function it carries out (task record, multitasking and single-task
scheduler, reference counts, mutex, condition), or goes through the machine's own steps (the event
loops), or a lemma shows that the machine moves as the contract says (`StepsAreSections` of promises,
`StepsAreOperations` of handler references).

| file | what it is |
|---|---|
| `Tasks.dfy` | one task: status machine, `resumes`/`resumesExpected`, mailbox, pins; the invariant every action keeps |
| `Runtime.dfy` | N schedulers stealing from each other: queues, pushes in flight, context switches, stashes |
| `RuntimeProofs.dfy`, `RuntimeTheorems.dfy` | the global inductive invariant, and what holds in every reachable state |
| `RuntimeLaws.dfy`, `RuntimeProgress.dfy` | what the steps do, seen from outside: the ends of the queues, where resumes go, reuse of contexts, what the histories stand for; that nobody is kept from acting, and that every live task can always still be run |
| `Schedulers.dfy` | the task record and `MultiTaskScheduler` updated in place, method by method |
| `SingleTask.dfy` | the scheduler of a fiberized thread |
| `TicketQueue.dfy`, `Waits.dfy` | the ticketed wait queue and the waiting loop shared by mutexes and conditions |
| `Mutexes.dfy`, `FifoLock.dfy` | `Mutex`, and the first-come-first-served lock it refines |
| `Conditions.dfy`, `Promises.dfy` | `Condition` with signal forwarding; `Promise` on top of it |
| `Lifetimes.dfy` | reference counts of tasks and of IO request environments |
| `Events.dfy`, `EventTheorems.dfy`, `EventLoops.dfy` | the mailbox, and the nested loops that drain it while handlers wait themselves: `process`, `processUntil`, `Event::await`; what an await consumes, by which handlers wait |
| `Handlers.dfy`, `HandlerRefs.dfy`, `HandlerOrder.dfy` | handler blocks with in-place collection; handler reference counts, and which handlers are destroyed when; the order in which handlers run |
| `Fairness.dfy` | `choosePriority` and the streak counter |
| `Idents.dfy` | the identifier generator |
| `Calculator.dfy`, `CalculatorTheorems.dfy`, `CalculatorGrammar.dfy` | the incremental parser and driver of the calculator example; what they answer in a session; exactly which texts they answer, wait in and reject |
| `LazyDeques.dfy`, `Options.dfy` | the lazily created deque; an option type |

Choices that matter when reading the statements:

- A push that has left the task's spinlock but not yet reached its queue, and a resume that a mutex or
  condition has decided on but not yet issued, are explicit parts of the state (`softPushes`,
  `hardPushes`, `inflight`), so every gap between two critical sections is interleaved.
- `resumes` is counted without bound and compared as a 64-bit word, as the code does.  In every
  reachable state a sleeping task's counters agree as words.  They then agree as numbers, unless 2^64
  resumes or more came between the moment the task last looked and its suspension, or it only yielded
  and its word is the marker: `Tasks.SleepsExactlyWhen` states when a task sleeps, and
  `RuntimeTheorems.YieldCanBeLost` gives a run after which one that only yielded stays asleep until
  somebody resumes it.
- `resumesExpected` is not set by the constructor.  It is `None` until first written, and a comparison
  with an unwritten word is arbitrary; `RuntimeTheorems.AssertionsHold` shows that none occurs.
- Task counts are 32-bit.  `Lifetimes.DeletesRightlyExactlyWhen` says for each of kill, the end of
  kill, and drop (after kill, and while kill is clearing) exactly which numbers of references make it
  delete a task that is in use; below 2^32 references none does.
- Copy-assigning a `HandlerRef` that is a handler's only reference to itself destroys the closure and
  leaves the handler live; `HandlerRefs.ClosuresKeptExactlyWhen` shows that nothing else does.
- The wait machines let the tasks do anything that the task protocol allows between the steps of the
  waiting loop, including waiting again inside a handler; they do not depend on which scheduler runs
  what.
- Handlers are arbitrary code that may wait: while an event is dispatched, its handlers can start
  loops that dispatch the events behind it, to any depth, throw, and catch what those loops throw, and
  events arrive at any moment.  So an await need not end at the event it returns, nor return the first
  of its path (`EventTheorems.AwaitCanOverrun`, `AwaitCanMiss`).  Which handlers may wait, that is,
  begin any loop while an event is dispatched, is a set of paths; `EventTheorems.ConsumesExactlyWhen`
  says by that set and the events sent when an await consumes exactly the events up to the first of
  its path, and `ExactExactlyWhen` and `FoundFirstExactlyWhen` for which sets every await is right.
- A `HandlerRef` can outlive its handler: kill destroys the task's handlers whatever their counts.
  `HandlerRefs.HandlersOutliveReferences` says exactly when none dangles; the collection of dead
  handlers never leaves one dangling.
- The calculator's driver calls `process()` between reading a statement and sending its value
  (`main.cpp:109`).  No handler is bound to `feed` then, so feed events already in the mailbox are
  dropped: a second statement can be lost (`CalculatorTheorems.SecondStatementLost`) or answered
  without its beginning (`CalculatorTheorems.SummandLost`).  The theorems about sessions state exactly
  which schedules of arrivals are safe, and that with one statement a line they are those of a sender
  that waits for each answer (`CalculatorTheorems.WaitersAnsweredExactlyWhen`).  The example's own
  `main` does not wait.
- Tasks keep their identity after they die and identities are never reused.

Where the code and its documentation disagree, the model follows the code.  `Condition::await` leaves
the caller's lock unlocked when it throws (`condition.cpp:60`), although `condition.hpp:32-33` promises
it locked.  `path.hpp:207` mentions only the bound of `2^16` generators; uniqueness also needs at most
`2^48` identifiers from each.  The next one repeats an identifier: the generator's own first if its
number is odd, and otherwise the first of the next generator (`Idents.TokenOverflow`).

## Model

| member | source | states |
|---|---|---|
| Tasks.Keeps | fiberize/src/fiberize/context.cpp:62-242 | Every action on a task, by anybody, keeps the whole protocol: counters, mailbox order, status machine and pin nesting |
| Tasks.AnyoneKeepsWakeful | fiberize/src/fiberize/context.cpp:198-242 | A send, resume or IO completion at any moment never leaves a task asleep with something to do |
| Tasks.CodeKeepsWakeful | fiberize/src/fiberize/context.cpp:62-104 | Every action of the task's own code keeps the wakeup protocol: a recorded count that still equals the resumes means an empty mailbox, or a stop, and an unset IO condition |
| Tasks.SchedulerKeepsWakeful | fiberize/src/fiberize/detail/multitaskscheduler.cpp:172-186 | Parking, finishing a suspension, starting, continuing and returning leave a task asleep only if it has seen every resume |
| Tasks.KeepsLifecycle | fiberize/include/fiberize/detail/task.hpp:65-90 | A task is scheduled only while Starting, Listening or Suspended, owns a stack exactly while Running or Suspended, and its runnable runs at most once |
| Tasks.KeepsPins | fiberize/src/fiberize/scopedpin.cpp:7-20 | Nested ScopedPins restore the pin the task was built with, and an await-mode request is protected by a pin on its own scheduler |
| Tasks.SleepsExactlyWhen | fiberize/src/fiberize/detail/multitaskscheduler.cpp:172-186 | A suspended task stays asleep if and only if its resumes equal the expected count as 64-bit words; for a yield, if and only if the word is the marker |
| Tasks.YieldCanBeLost | fiberize/src/fiberize/detail/multitaskscheduler.cpp:76-79 | A task that satisfies the invariant and yields after 2^64 - 1 resumes is left asleep, and the next resume schedules it |
| Tasks.SuspendsOnlyAfterLook | fiberize/src/fiberize/context.cpp:62-133 | Code can suspend only right after it recorded the resumes or yielded, with nothing but other threads' actions in between; when it runs again it must look again |
| Tasks.SleepsUnlessResumed | fiberize/src/fiberize/detail/multitaskscheduler.cpp:172-186 | A task that has processed and then suspends, or returns to listening, sleeps if and only if the number of resumes that came in between is a multiple of 2^64 |
| Tasks.WrappersEndTasks | fiberize/include/fiberize/detail/tasktraits.hpp:45-52 | A stopped task may return and is then dead; an actor that has processed its mailbox listens, scheduled again exactly if it was resumed since |
| RuntimeProofs.Keeps | fiberize/src/fiberize/detail/multitaskscheduler.cpp:188-363 | Every step of N stealing schedulers keeps the global invariant over schedulers, tasks, pushes in flight and stack contexts |
| RuntimeProofs.KeepsFinish | fiberize/src/fiberize/detail/multitaskscheduler.cpp:172-186 | Finishing a suspension after the context switch gives up the claim on the task or turns it into one push in flight |
| RuntimeProofs.KeepsSteal | fiberize/src/fiberize/detail/multitaskscheduler.cpp:97-119 | A steal moves the only claim on a task from the victim's queue to the thief and takes only unpinned tasks |
| RuntimeProofs.KeepsJumpToLoop | fiberize/src/fiberize/detail/multitaskscheduler.cpp:214-226 | Jumping to a fresh unowned context saves the suspending computation and keeps every context in one place |
| RuntimeTheorems.NoDoubleRun | fiberize/src/fiberize/detail/multitaskscheduler.cpp:51-70 | In every reachable state a task has at most one claim to run it; it is Running exactly when one thread executes it and scheduled exactly when it is pushed, queued or taken; its runnable ran at most once |
| RuntimeTheorems.JumpsAreSaved | fiberize/src/fiberize/detail/multitaskscheduler.cpp:292-310 | A thread jumps to a task only after its context was saved, and runs a runnable only the first time |
| Tasks.SleepersHaveSeenAll | fiberize/src/fiberize/detail/multitaskscheduler.cpp:172-186 | A sleeping task has seen every resume, every event unless stopped, and waits for no completed request; or 2^64 resumes came since it looked, or it yielded and its word is the marker |
| RuntimeTheorems.NoLostWakeup | fiberize/src/fiberize/context.cpp:62-133 | The same for every task of every reachable state that is not on its way to a thread, however long it has lived; its counters agree as words |
| RuntimeTheorems.SleepsUntilWoken | fiberize/src/fiberize/context.cpp:198-242 | In any run a sleeping task stays as it is until somebody sends to it, resumes it or completes its request; and whoever does so schedules it |
| RuntimeTheorems.YieldCanBeLost | fiberize/src/fiberize/detail/multitaskscheduler.cpp:76-79 | A run of one scheduler leads to a task that only yielded, after 2^64 - 1 resumes, and stays asleep in every continuation in which nobody wakes it |
| RuntimeTheorems.EventsInOrder | fiberize/src/fiberize/detail/localfiberref.cpp:28-32 | In every reachable state the dispatched events are a prefix of the sent ones and the mailbox holds exactly the rest |
| RuntimeTheorems.ContextsConserved | fiberize/src/fiberize/detail/multitaskscheduler.cpp:365-391 | Every context allocated is in exactly one stash, unowned slot or task, or was deallocated; stashes hold at most 256; tasks own one exactly while Running or Suspended |
| RuntimeTheorems.StacksAreSeparate | fiberize/src/fiberize/detail/multitaskscheduler.cpp:215-246 | Threads execute on pairwise different stacks, none of which is stashed or deallocated |
| RuntimeTheorems.AssertionsHold | fiberize/src/fiberize/detail/multitaskscheduler.cpp:188-254 | The asserts of resume, finishSuspending and both loops hold in every run, soft queues hold Starting or Listening tasks and hard ones Suspended tasks |
| RuntimeTheorems.ThreadsMove | fiberize/src/fiberize/detail/multitaskscheduler.cpp:256-363 | In every reachable state each thread has a next step, so no `__builtin_unreachable` branch is reached |
| RuntimeProgress.LiveTasksCanBeRun | fiberize/src/fiberize/detail/multitaskscheduler.cpp:188-363 | From every reachable state, whatever was pushed, queued, taken or suspended where, some run leads to a thread executing the code of any given task that is not dead |
| RuntimeProgress.ScheduledCanBeRun | fiberize/src/fiberize/detail/multitaskscheduler.cpp:188-363 | If the task is scheduled, that run needs no further resume |
| RuntimeTheorems.PinnedStaysHome | fiberize/src/fiberize/context.cpp:217-241 | A pinned task is pushed to, queued on, taken by and run by its own scheduler only |
| RuntimeTheorems.NoMigration | fiberize/src/fiberize/scopedpin.cpp:7-20 | Over any stretch of a run with a live ScopedPin the task is run and queued only where it was pinned at the start |
| RuntimeLaws.OwnerTakesLast | fiberize/src/fiberize/detail/multitaskscheduler.cpp:60-95 | After a push arrives the owner can dequeue, gets the task pushed last, and finds behind it the queues that were there before |
| RuntimeLaws.OwnerTakesFront | fiberize/src/fiberize/detail/multitaskscheduler.cpp:89-111 | Who looks for a task can take the front of either own queue if and only if it has one, and leaves the rest |
| RuntimeLaws.ThiefTakesBack | fiberize/src/fiberize/detail/multitaskscheduler.cpp:97-119 | Who looks for a task can steal from a queue if and only if its back is not pinned, and gets exactly the back |
| RuntimeLaws.ThiefTakesOnly | fiberize/src/fiberize/detail/multitaskscheduler.cpp:60-119 | A task pushed to an empty queue is what a thief takes, if it is not pinned |
| RuntimeLaws.ThiefTakesFirst | fiberize/src/fiberize/detail/multitaskscheduler.cpp:60-119 | A push to a queue that is not empty changes neither whether a thief can steal from it nor the task the thief takes |
| RuntimeLaws.IdleLoopsPoll | fiberize/src/fiberize/detail/multitaskscheduler.cpp:256-300 | A loop that found nothing polls for IO and then looks for a task again |
| RuntimeLaws.ResumesArePushed | fiberize/src/fiberize/context.cpp:198-242 | A send, resume or callback schedules exactly the new, listening and suspended tasks that are not scheduled, and pushes them to the scheduler they are pinned to, or else the resumer's, to the queue of their class; nothing else happens to any scheduler |
| RuntimeLaws.BuiltTasksWait | fiberize/include/fiberize/detail/task.hpp:94-103 | A task that is built is Starting, not scheduled, pinned as asked, with an empty mailbox, and changes nothing else |
| RuntimeLaws.BuiltPinnedStaysHome | fiberize/include/fiberize/builder.hpp:134-147 | A task can be built pinned to any scheduler, and in every run from then on it is pinned there and run and queued nowhere else |
| RuntimeLaws.StashIsReused | fiberize/src/fiberize/detail/multitaskscheduler.cpp:365-391 | A switch to the loop takes the context stashed last and allocates one only if the stash is empty; stashing puts it back behind the others, or deallocates it at 256 |
| RuntimeLaws.EventsAreThoseSent | fiberize/src/fiberize/detail/localfiberref.cpp:28-32 | After any run, what a task has dispatched and what is in its mailbox are together exactly the events of the send steps to it, in the order of these steps, cut after as many as its code took |
| RuntimeLaws.CallbackCompletes | fiberize/include/fiberize/io/detail/libuvwrapper.hpp:82-102 | A callback sets the condition of its own request and of no other and resumes the task; if the request's loop is the innermost, it finds the condition set |
| RuntimeLaws.OnlyCallbacksComplete | fiberize/include/fiberize/io/detail/libuvwrapper.hpp:82-102 | No other step completes a request |
| RuntimeLaws.AnybodyCanAct | fiberize/src/fiberize/context.cpp:198-242 | In every reachable state a send or resume from anywhere, the arrival of any push in flight, the callback of any request while its scheduler polls, and every action of running code that its own task permits can happen |
| RuntimeLaws.CodeCanSuspend | fiberize/src/fiberize/context.cpp:62-133 | In every reachable state code that is executed can yield and suspend, dispatch if and only if there is an event, and process an empty mailbox and suspend |
| RuntimeLaws.CodeCanSuspendForIo | fiberize/src/fiberize/context.cpp:62-104 | In every reachable state code whose request is not complete can test it, drain its mailbox and suspend |
| RuntimeLaws.CodeCanWait | fiberize/include/fiberize/io/detail/libuvwrapper.hpp:295-335 | In every reachable state code can start a request on its own scheduler, and is then pinned there with the request not complete |
| RuntimeLaws.CodeCanReturn | fiberize/src/fiberize/detail/multitaskscheduler.cpp:337-349 | In every reachable state code can stop, and outside all frames it can then return and leaves its task dead |
| Schedulers.TaskRecord.constructor | fiberize/include/fiberize/detail/task.hpp:94-103 | A new record is a Starting, unscheduled task with an unwritten expected count |
| Schedulers.TaskRecord.Reschedule | fiberize/src/fiberize/detail/multitaskscheduler.cpp:51-58 | The second increment of resumes, on the wrapped word, and the scheduled flag |
| Schedulers.TaskRecord.Resume | fiberize/src/fiberize/context.cpp:202-242 | A resume is the protocol's step and asks for a push exactly if the task is Starting, Listening or Suspended and not scheduled |
| Schedulers.TaskRecord.Send | fiberize/src/fiberize/detail/localfiberref.cpp:28-32 | Enqueueing and resuming under one lock is one step of the protocol |
| Schedulers.TaskRecord.ProcessSection | fiberize/src/fiberize/context.cpp:112-133 | One turn of process takes the first event, or records the expected count exactly if the task is stopped or the mailbox is empty |
| Schedulers.TaskRecord.Yield | fiberize/src/fiberize/detail/multitaskscheduler.cpp:76-79 | yield stores the marker and is the protocol's step |
| Schedulers.TaskRecord.FinishSuspending | fiberize/src/fiberize/detail/multitaskscheduler.cpp:172-186 | The comparison of the two words decides whether the task is pushed, as the protocol's step does |
| Schedulers.TaskRecord.Return | fiberize/src/fiberize/detail/multitaskscheduler.cpp:337-349 | The end of an iteration listens, reschedules or kills as the protocol's step does |
| Schedulers.TaskRecord.PinTo | fiberize/src/fiberize/scopedpin.cpp:7-14 | ScopedPin pins an unpinned task to the executing scheduler and remembers whether it was pinned |
| Schedulers.TaskRecord.Unpin | fiberize/src/fiberize/scopedpin.cpp:16-20 | The destructor of the innermost ScopedPin undoes its constructor |
| Schedulers.MultiTaskScheduler.Push | fiberize/src/fiberize/detail/multitaskscheduler.cpp:60-69 | A push in flight arrives at the front of its queue, the rest and the other queue as they were, as the machine's Deliver step does |
| Schedulers.MultiTaskScheduler.DequeueFrom | fiberize/src/fiberize/detail/multitaskscheduler.cpp:89-111 | The front of a queue that is not empty becomes the current task, as the machine's Dequeue step does |
| Schedulers.MultiTaskScheduler.StealFrom | fiberize/src/fiberize/detail/multitaskscheduler.cpp:97-119 | The back of a queue leaves it exactly if it exists and is not pinned, as the machine's Steal step does |
| Schedulers.MultiTaskScheduler.Dequeue | fiberize/src/fiberize/detail/multitaskscheduler.cpp:121-133 | Undisturbed, the attempts of dequeue take the front of the preferred queue, else of the other, and find nothing only if both are empty |
| Schedulers.MultiTaskScheduler.ChoosePriority | fiberize/src/fiberize/detail/multitaskscheduler.cpp:153-170 | The priority and the new streak are those the fairness argument is about |
| Schedulers.MultiTaskScheduler.FinishSuspending | fiberize/src/fiberize/detail/multitaskscheduler.cpp:172-186 | On scheduler and task record together, the whole of finishSuspending is the machine's Finish step, with the push left in flight |
| Schedulers.MultiTaskScheduler.StashGet | fiberize/src/fiberize/detail/multitaskscheduler.cpp:365-381 | The stash hands out its last context, or a new one is allocated |
| Schedulers.MultiTaskScheduler.StashPut | fiberize/src/fiberize/detail/multitaskscheduler.cpp:383-391 | A context is stashed below 256 and deallocated otherwise |
| SingleTask.SingleTaskScheduler.Resume | fiberize/src/fiberize/detail/singletaskscheduler.cpp:27-35 | A resume makes a suspended thread's task Running and raises its flag, as the machine's step does |
| SingleTask.SingleTaskScheduler.Suspend | fiberize/src/fiberize/detail/singletaskscheduler.cpp:37-49 | suspend leaves the task Suspended, unresumed and in the waiting loop if and only if the words are equal, and changes nothing otherwise |
| SingleTask.Keeps | fiberize/src/fiberize/detail/singletaskscheduler.cpp:27-62 | Every interleaving of sends, resumes, processing, suspending and leaving the loop keeps the thread's invariant |
| SingleTask.NoLostWakeup | fiberize/src/fiberize/detail/singletaskscheduler.cpp:37-62 | In every run of a fiberized thread it loops unresumed exactly while its task is Suspended, and then has seen every resume and every event, or 2^64 resumes came before it suspended |
| SingleTask.SuspendsExactlyWhen | fiberize/src/fiberize/detail/singletaskscheduler.cpp:37-49 | In every reachable state suspend leaves the thread looping, Suspended and unresumed if and only if the resumes equal the expected count as words, and changes nothing otherwise |
| SingleTask.CodeGoesOn | fiberize/src/fiberize/context.cpp:112-133 | In every reachable state outside the waiting loop the thread can take the first event if and only if there is one |
| SingleTask.SuspendsWhenIdle | fiberize/src/fiberize/detail/singletaskscheduler.cpp:37-62 | A thread that processes an empty mailbox and then suspends does suspend |
| SingleTask.ResumesEndTheLoop | fiberize/src/fiberize/detail/singletaskscheduler.cpp:27-62 | A looping thread leaves its loop if and only if its flag is raised, Running again; a send or resume can always come and raises it |
| SingleTask.EventsAreThoseSent | fiberize/src/fiberize/detail/localfiberref.cpp:28-32 | What a fiberized thread has dispatched and what is in its mailbox are the events of the send steps, in their order |
| TicketQueue.LiveMembers | fiberize/src/fiberize/mutex.cpp:27-32 | The tickets still waiting are exactly those with a slot that is not null |
| TicketQueue.JoinGoesLast | fiberize/src/fiberize/mutex.cpp:27-32 | A newcomer's ticket belongs to the slot it appended and waits behind all others |
| TicketQueue.CancelRemovesOnlyItself | fiberize/src/fiberize/mutex.cpp:59-63 | Nulling slot ticket - released - 1 removes that waiter and nobody else, in order |
| TicketQueue.ReleaseGoesFirst | fiberize/src/fiberize/mutex.cpp:91-103 | The popping loop releases the earliest live waiter, or empties the queue if there is none, and keeps slots aligned with tickets |
| Waits.Keeps | fiberize/src/fiberize/mutex.cpp:36-71 | Every step of the waiting loop, of its tasks and of releases keeps slots, waiters and counters consistent, with waits nested in handlers |
| Waits.CancelFindsOwnSlot | fiberize/src/fiberize/condition.cpp:49-55 | The queue length is nextTicket - 1 - released, the computed index is in bounds, and the slot is the canceller's and no other waiter's |
| Waits.GrantReachesWaiter | fiberize/src/fiberize/condition.cpp:73-84 | A waiter passed by a release is the last one released and its resume is in flight |
| Waits.NoSleepThroughGrant | fiberize/src/fiberize/condition.cpp:29-46 | A waiter asleep after its release has a resume in flight, or was resumed 2^64 times between process and suspend |
| Waits.TestsLeaveExactlyWhen | fiberize/src/fiberize/mutex.cpp:38-54 | A waiter at either test of its loop can step, leaves if and only if its ticket has been released, and otherwise goes on to process or to suspend; nobody else changes |
| Waits.WaitersGoOn | fiberize/src/fiberize/mutex.cpp:38-54 | The innermost wait of a task that executes can take its next step: dispatch the next event, end its processing, or suspend |
| Waits.TasksOfWaitersGoOn | fiberize/src/fiberize/mutex.cpp:38-54 | The task of a waiter executes, can be moved on by a scheduler, or is asleep; a resume decided on can always arrive; and back from suspend the waiter tests again |
| Waits.AnybodyCanWait | fiberize/src/fiberize/mutex.cpp:27-32 | A task that executes and is not between the steps of a wait can join, with a new ticket and behind all others |
| Mutexes.Mutex.constructor | fiberize/src/fiberize/mutex.cpp:15-16 | A new mutex is locked or free as asked, with no tickets |
| Mutexes.Mutex.LockSection | fiberize/src/fiberize/mutex.cpp:18-34 | The first section of lock takes a free mutex or joins the queue with the next ticket |
| Mutexes.Mutex.TryLock | fiberize/src/fiberize/mutex.cpp:74-82 | try_lock succeeds exactly on a free mutex and leaves it locked |
| Mutexes.Mutex.Unlock | fiberize/src/fiberize/mutex.cpp:88-107 | unlock hands the mutex to the earliest live waiter, or frees it |
| Mutexes.Mutex.CancelSection | fiberize/src/fiberize/mutex.cpp:57-67 | The catch block writes a slot that exists, or passes on a mutex already received |
| Mutexes.Keeps | fiberize/src/fiberize/mutex.cpp:18-107 | Every step keeps the relation between the flag, the owner, the queue and the history of grants |
| Mutexes.StepsAreSections | fiberize/src/fiberize/mutex.cpp:18-107 | The machine moves the mutex exactly as the methods of the class do, and resumes the same task |
| Mutexes.MutualExclusion | fiberize/src/fiberize/mutex.cpp:18-107 | In every run at most one caller holds the mutex, and then no waiter has been granted it; at most one granted waiter has not noticed |
| Mutexes.NoOvertaking | fiberize/src/fiberize/mutex.cpp:21-25 | A free mutex has an empty queue, so no lock or try_lock overtakes a waiter |
| Mutexes.GrantsInOrder | fiberize/src/fiberize/mutex.cpp:91-103 | Grants go in ticket order and skip exactly the waiters that gave up |
| Mutexes.OwnSlot | fiberize/src/fiberize/mutex.cpp:58-63 | In every run the slot a throwing waiter nulls is in bounds and its own |
| Mutexes.NoSleepThroughGrant | fiberize/src/fiberize/mutex.cpp:36-54 | The same in every run for a waiter asleep after being handed the mutex |
| Mutexes.GrantedLockReturns | fiberize/src/fiberize/mutex.cpp:36-54 | In every reachable state a waiter that was handed the mutex and tests can step, and is then the only caller inside |
| Mutexes.NobodyIsHeldUp | fiberize/src/fiberize/mutex.cpp:36-71 | Waiters, their tasks and resumes can do on a mutex all that the wait machine lets them do, giving up included |
| Mutexes.CallsTakeEffect | fiberize/src/fiberize/mutex.cpp:18-107 | In every reachable state a task whose code runs can lock and try_lock: on a free mutex either takes it, on a locked one lock queues the task last and try_lock changes nothing; who is inside can unlock |
| Mutexes.Refines | fiberize/src/fiberize/mutex.cpp:18-107 | Each step is the operation of that name on a first-come-first-served lock, or no operation |
| Mutexes.RunRefines | fiberize/src/fiberize/mutex.cpp:18-107 | Every run of the mutex is a run of that lock, ending in the same state |
| Mutexes.ThrownLockHasNoEffect | fiberize/include/fiberize/mutex.hpp:36-41 | A contended lock that throws, whatever others did meanwhile, leaves the lock as the others alone would have |
| FifoLock.OthersDoNotNotice | fiberize/include/fiberize/mutex.hpp:36-41 | Anybody else's operation is allowed and has the same effect with or without a caller that later gives up |
| FifoLock.ThrowingLeavesNoTrace | fiberize/include/fiberize/mutex.hpp:36-41 | Acquiring, any operations of others, and giving up equal the others' operations alone |
| LazyDeques.LazyDeque.PushBack | fiberize/include/fiberize/detail/lazydeque.hpp:62-66 | Appends, creating the deque if there is none |
| LazyDeques.LazyDeque.PopFront | fiberize/include/fiberize/detail/lazydeque.hpp:68-70 | Removes the first element of a deque that has one |
| LazyDeques.LazyDeque.IsEmpty | fiberize/include/fiberize/detail/lazydeque.hpp:84-86 | A deque that was never created is empty |
| LazyDeques.LazyDeque.Set | fiberize/include/fiberize/detail/lazydeque.hpp:88-90 | Writes one element in place |
| Conditions.Condition.AwaitSection | fiberize/src/fiberize/condition.cpp:16-26 | await joins the queue with the next ticket |
| Conditions.Condition.Signal | fiberize/src/fiberize/condition.cpp:69-86 | A signal pops the queue to the earliest live waiter, whose task is resumed, or empties it |
| Conditions.Condition.CancelSection | fiberize/src/fiberize/condition.cpp:47-59 | The catch block nulls the own slot or forwards a signal already received |
| Conditions.StepsAreSections | fiberize/src/fiberize/condition.cpp:16-86 | The machine moves the queue exactly as the methods of the class do |
| Conditions.SignalsConserved | fiberize/src/fiberize/condition.cpp:47-86 | In every run, signals that found a waiter = waits ended normally + waiters released and not yet gone + forwards that found nobody |
| Conditions.SignalReleasesEarliest | fiberize/src/fiberize/condition.cpp:69-86 | A signal with a live waiter releases exactly the earliest one and leaves its resume in flight |
| Conditions.ThrowForwards | fiberize/src/fiberize/condition.cpp:47-64 | A throwing waiter either leaves the queue alone or hands its signal to the earliest remaining waiter, if any |
| Conditions.SignalAllReleasesAll | fiberize/src/fiberize/condition.cpp:88-103 | When signalAll leaves its loop every waiter present at its call has been released, and so has every later one |
| Conditions.OwnSlot | fiberize/src/fiberize/condition.cpp:51-55 | In every run the slot a throwing waiter nulls is in bounds and its own |
| Conditions.NoSleepThroughSignal | fiberize/src/fiberize/condition.cpp:28-46 | The same in every run for a waiter asleep after its signal |
| Conditions.SignalledWaitReturns | fiberize/src/fiberize/condition.cpp:28-46 | In every reachable state a released waiter that tests can step, and its await is then counted as returned |
| Conditions.NobodyIsHeldUp | fiberize/src/fiberize/condition.cpp:28-64 | The same on a condition |
| Conditions.CallsTakeEffect | fiberize/src/fiberize/condition.cpp:16-86 | In every reachable state a task whose code runs can await, joining the queue last, and anybody can signal |
| Promises.Promise.Complete | fiberize/include/fiberize/promise.hpp:67-92 | Only the first completion succeeds and sets the value; it ends with an empty queue and every earlier ticket released, whatever waiters do while the lock is dropped |
| Promises.Promise.AwaitSection | fiberize/include/fiberize/promise.hpp:97-101 | await returns a value that is there and otherwise joins the queue |
| Promises.StepsAreSections | fiberize/include/fiberize/promise.hpp:67-103 | The machine moves the cell and the queue exactly as the methods of the class do |
| Promises.WhileLockDropped | fiberize/src/fiberize/condition.cpp:98-100 | From a completed promise on, no run of anybody's steps adds a waiter or lowers `released`, which is what complete relies on while its lock is dropped |
| Promises.WrittenOnce | fiberize/include/fiberize/promise.hpp:67-103 | In every run at most one completion succeeds and every await that returned found its value |
| Promises.NeverOverwritten | fiberize/include/fiberize/promise.hpp:73-74 | A value, once there, is the same after any further steps |
| Promises.ReleasedImpliesResult | fiberize/include/fiberize/promise.hpp:97-103 | A released waiter always finds the value, which is why an `if` suffices |
| Promises.CompletedLeavesNobody | fiberize/include/fiberize/promise.hpp:86-91 | When complete has returned every waiter is released, and one that still sleeps has a resume in flight, with the same exception |
| Promises.SignalAllEnds | fiberize/include/fiberize/promise.hpp:86-89 | After the value is written, signalAll makes at most one round per queued slot and one more, in every run |
| Promises.CompletedAwaitReturns | fiberize/include/fiberize/promise.hpp:97-103 | In every reachable state a released waiter that tests can step, and its await then returns the value |
| Promises.NobodyIsHeldUp | fiberize/include/fiberize/promise.hpp:97-103 | The same on a promise, whose value stays as it is |
| Promises.CallsTakeEffect | fiberize/include/fiberize/promise.hpp:67-103 | In every reachable state complete and await can be called: the first value stays, and await returns a value that is there and otherwise queues the task last |
| Promises.SweepingGoesOn | fiberize/src/fiberize/condition.cpp:88-103 | While waiters of a completed promise are queued signalAll goes on; each round removes exactly the earliest, and the last empties the queue |
| Lifetimes.TaskCount.Drop | fiberize/include/fiberize/detail/task.hpp:191-198 | drop on the fields is the machine's Drop step and deletes exactly when that step counts a deletion |
| Lifetimes.TaskCount.KillSection | fiberize/src/fiberize/scheduler.cpp:45-53 | The first section of kill is the machine's Kill step |
| Lifetimes.TaskCount.KillEnd | fiberize/src/fiberize/scheduler.cpp:57-62 | The last section of kill is the machine's EndKill step |
| Lifetimes.DeletesRightlyExactlyWhen | fiberize/src/fiberize/scheduler.cpp:45-64 | Each step deletes the task rightly if and only if the references at it are not one of the multiples of 2^32 that wrap to zero, given separately for kill, its end, and drop at both stages |
| Lifetimes.RunRightExactlyWhen | fiberize/include/fiberize/detail/task.hpp:181-198 | A whole run deletes rightly in every state if and only if it never steps at such a multiple |
| Lifetimes.DeletedOnce | fiberize/src/fiberize/scheduler.cpp:45-64 | Under every interleaving of grab, drop and kill a task is deleted once, exactly when killed, unreferenced and cleared, if and only if no step wraps; and nothing touches it afterwards |
| Lifetimes.FewReferencesAreSafe | fiberize/include/fiberize/detail/task.hpp:160 | Below 2^32 references no step wraps |
| Lifetimes.WrappedCountIsFatal | fiberize/include/fiberize/detail/task.hpp:160 | For each of the failures a state that some run of a new task leads to, in which the step deletes a task in use |
| Lifetimes.CanAlwaysBeDeleted | fiberize/src/fiberize/scheduler.cpp:45-64 | From every state with fewer than 2^32 references and no deletion yet, dropping the references and killing deletes the task, once |
| Lifetimes.AwaitRequestEnv.StartRequest | fiberize/include/fiberize/io/detail/libuvwrapper.hpp:309-319 | A request that fails at once gives the callback's reference back |
| Lifetimes.AwaitRequestEnv.RequestCompleted | fiberize/include/fiberize/io/detail/libuvwrapper.hpp:82-102 | The callback sets the condition and drops its reference |
| Lifetimes.AwaitRequestEnv.FrameLeaves | fiberize/src/fiberize/detail/referencecounted.cpp:20-25 | The awaiting frame's reference is dropped and the last drop deletes |
| Lifetimes.EnvFreedOnce | fiberize/include/fiberize/io/detail/libuvwrapper.hpp:295-335 | A request's environment is deleted once, when both the awaiting frame and the callback are done, by success, exception or immediate failure, and neither touches it afterwards |
| Lifetimes.ConditionTellsCallback | fiberize/include/fiberize/io/detail/libuvwrapper.hpp:82-102 | In every run the frame finds the condition set if and only if the callback has run; the callback can run, once, exactly if the request was accepted; the frame can leave, once, exactly if the request was started or refused |
| Events.DequeMailbox.Enqueue | fiberize/src/fiberize/mailbox.cpp:12-14 | An event enters behind all others |
| Events.DequeMailbox.Dequeue | fiberize/src/fiberize/mailbox.cpp:16-24 | The first event leaves, or nothing if there is none |
| Events.Keeps | fiberize/src/fiberize/context.cpp:62-133 | Every step of any nesting of loops keeps the events in order, each payload freed or in dispatch, and every await's first event |
| EventTheorems.ConsumedIsPrefix | fiberize/src/fiberize/context.cpp:62-133 | In every run, however loops are nested, the dispatched events are a prefix of those sent and the rest waits in order |
| EventTheorems.EventsAreThoseSent | fiberize/src/fiberize/detail/localfiberref.cpp:28-32 | After any run of nested loops, what was dispatched and what is in the mailbox are the events of the arrival steps, in their order, cut after as many as were taken |
| EventTheorems.LoopsGoOn | fiberize/src/fiberize/context.cpp:62-133 | In every reachable state the innermost loop can end if and only if process finds its mailbox empty or the task stopped, or the condition of the others is set; until then it can take the first event, if there is one whose handlers do not overlap with those of an awaited event under dispatch |
| EventTheorems.StoppedExactlyWhen | fiberize/src/fiberize/context.cpp:30-35 | In every run a task is stopped if and only if some step stopped it |
| EventTheorems.ConditionsAreGiven | fiberize/include/fiberize/event-inl.hpp:11-24 | The condition of a loop is set by the completion of its request, which can come at any moment, or by the dispatch of an event of its path, which is then its result; nothing else sets it and nothing takes it back |
| EventTheorems.FreedOnce | fiberize/src/fiberize/context.cpp:77-86 | In every run each dispatched payload is freed exactly once, on the normal path or in the catch block, unless it is still in dispatch |
| EventTheorems.AwaitReturnsFirst | fiberize/include/fiberize/event-inl.hpp:11-24 | An await returns an event of its path; earlier ones since it began were dispatched by a nested loop and ended in an exception; its own loop takes nothing behind it |
| EventTheorems.AwaitIsExact | fiberize/src/fiberize/context.cpp:71-95 | In a run in which only handlers of given paths wait: if no event up to the one an await returns has such a path, it returned the first of its path and consumed nothing behind it |
| EventTheorems.ConsumesExactlyWhen | fiberize/src/fiberize/context.cpp:62-104 | For every path and sequence of events ending in the first of the path: every await that finds or is sent these events consumes exactly these, in every run, if and only if none of them has a path whose handlers wait |
| EventTheorems.ExactExactlyWhen | fiberize/src/fiberize/context.cpp:87-92 | All awaits of a path, in all runs, are exact, or end at the event they return, if and only if no handlers wait |
| EventTheorems.FoundFirstExactlyWhen | fiberize/include/fiberize/event-inl.hpp:11-24 | All awaits of a path, in all runs, return the first event of the path dispatched since they began if and only if no handlers wait but those of the path itself |
| EventTheorems.AwaitWithoutNesting | fiberize/include/fiberize/event-inl.hpp:11-24 | If no nested loop takes an event, an await consumes exactly the shortest prefix that ends in an event of its path |
| EventTheorems.AwaitCanOverrun | fiberize/src/fiberize/context.cpp:71-95 | If an event up to the first of the path has a handler that waits, some run has an await of the path consume any further events as well |
| EventTheorems.AwaitCanMiss | fiberize/src/fiberize/context.cpp:77-83 | With B, A1, A2 in the mailbox, a run in which an await of A whose B handler waits and catches returns A2 |
| EventLoops.EventLoop.Dispatch | fiberize/src/fiberize/context.cpp:71-86 | One event and whatever its handlers do, nested loops included: its payload is freed however the dispatch ends, and the loops below stand as before |
| EventLoops.EventLoop.ProcessUntil | fiberize/src/fiberize/context.cpp:62-104 | The code of processUntil goes through reachable states only, restores the stack of loops, and leaves the result that the theorems about awaits speak of; it gives up only when there are no more moves, or when the first event's path is awaited and under dispatch |
| EventLoops.EventLoop.Process | fiberize/src/fiberize/context.cpp:112-133 | The code of process goes through reachable states only, ends with an empty mailbox or a stopped task, and gives up under the same two conditions only |
| Handlers.CollectGarbage | fiberize/src/fiberize/context.cpp:139-151 | The in-place compaction leaves the live handlers in order and destroys each dead one exactly once |
| Handlers.CollectionLosesNothing | fiberize/src/fiberize/context.cpp:139-151 | The handlers kept and those destroyed are together exactly the handlers of the block |
| Handlers.CollectionIsFilter | fiberize/src/fiberize/context.cpp:139-151 | A handler is kept if and only if it is in the block and live, and destroyed if and only if it is in it and dead |
| Handlers.Dispatch | fiberize/src/fiberize/context.cpp:153-186 | Dispatching executes each live handler once, newest binding first, after destroying the dead ones |
| Handlers.ReversedAt | fiberize/src/fiberize/context.cpp:180-185 | The order of execution is that of the block read from its back |
| HandlerRefs.Handler.Drop | fiberize/include/fiberize/handler.hpp:29-33 | The closure goes exactly with the last reference |
| HandlerRefs.HandlerRef.constructor | fiberize/include/fiberize/handler.hpp:90-93 | A new reference grabs its handler, if any |
| HandlerRefs.HandlerRef.Copy | fiberize/include/fiberize/handler.hpp:95-98 | A copy shares the handler and counts once more |
| HandlerRefs.HandlerRef.Move | fiberize/include/fiberize/handler.hpp:100-102 | A move empties its source and changes no count |
| HandlerRefs.HandlerRef.Assign | fiberize/include/fiberize/handler.hpp:108-115 | Copy assignment, with what it does to the closure when both sides hold the same handler |
| HandlerRefs.HandlerRef.MoveAssign | fiberize/include/fiberize/handler.hpp:117-123 | Move assignment drops the old handler and empties its source, itself included |
| HandlerRefs.HandlerRef.Release | fiberize/include/fiberize/handler.hpp:125-130 | release drops the handler once and forgets it |
| HandlerRefs.StepsAreOperations | fiberize/include/fiberize/handler.hpp:86-131 | The machine moves references, counts and closures exactly as the methods of the classes do |
| HandlerRefs.KeepsCounts | fiberize/include/fiberize/handler.hpp:86-131 | Every operation on references keeps each count equal to the references and grabs that hold the handler |
| HandlerRefs.ClosuresKeptExactlyWhen | fiberize/include/fiberize/handler.hpp:108-115 | An operation breaks "the closure is there while the handler is referenced" if and only if it copy-assigns a sole reference to itself |
| HandlerRefs.LiveWhileReferenced | fiberize/include/fiberize/handler.hpp:25-37 | After any run counts match references, and without that self-assignment closures match counts |
| HandlerRefs.HandlerIsLive | fiberize/include/fiberize/handler.hpp:18-46 | A handler's closure is there exactly while some reference or manual grab holds it, starting from no handlers |
| HandlerRefs.KeepsOwned | fiberize/src/fiberize/context.cpp:139-192 | Binding, collecting and clearing keep every handler in exactly one slot, of the block it was bound to, or destroyed once |
| HandlerRefs.CollectsUnreferenced | fiberize/src/fiberize/context.cpp:139-151 | A collection destroys, of the handlers in the block, exactly those that no HandlerRef or grab holds, and keeps the others |
| HandlerRefs.DanglesExactlyWhen | fiberize/src/fiberize/scheduler.cpp:45-64 | A step leaves a HandlerRef pointing to a destroyed handler if and only if it is kill destroying a handler that a HandlerRef holds |
| HandlerRefs.HandlersOutliveReferences | fiberize/src/fiberize/scheduler.cpp:45-64 | In every run of a new task, no HandlerRef ever dangles if and only if kill destroys none that is still held; each handler is in one slot or was destroyed once |
| HandlerRefs.HeldHandlerDangles | fiberize/src/fiberize/scheduler.cpp:56 | A run in which a held handler is destroyed under its HandlerRef |
| HandlerOrder.BlocksAreInOrder | fiberize/src/fiberize/context.cpp:188-192 | After any run a block lists, in the order of the steps that bound them, the handlers bound to its path and not destroyed |
| HandlerOrder.HeldAreExecuted | fiberize/src/fiberize/context.cpp:153-192 | A dispatch executes exactly the handlers bound to the path that a HandlerRef or grab holds and that were not destroyed |
| HandlerOrder.NewestRunsFirst | fiberize/src/fiberize/context.cpp:180-192 | Of two handlers that a dispatch executes, the one bound later runs first |
| Fairness.StreakBounded | fiberize/src/fiberize/detail/multitaskscheduler.cpp:153-170 | sameStreak never exceeds 64, over any sequence of turns of the two loops and any changes to the queues |
| Fairness.QuietAttempts | fiberize/src/fiberize/detail/multitaskscheduler.cpp:121-133 | Undisturbed, the four attempts come down to the front of the preferred queue, else of the other |
| Fairness.LimitLooksAtOther | fiberize/src/fiberize/detail/multitaskscheduler.cpp:121-133 | At the limit a preferred task is dispatched only after the other queue was found empty |
| Fairness.BoundedBypass | fiberize/src/fiberize/detail/multitaskscheduler.cpp:206-229 | With pushes and thefts between all attempts, one loop dispatches at most 64 preferred tasks in a row without finding the other queue empty, counting what the shared streak already stands for |
| Fairness.OtherIsServed | fiberize/src/fiberize/detail/multitaskscheduler.cpp:274-294 | At the limit the front of the other queue, if it has one, is dispatched first and the streak restarts |
| Fairness.PreferredIsServed | fiberize/src/fiberize/detail/multitaskscheduler.cpp:153-170 | Below the limit a preferred task found at the first attempt is dispatched and the streak grows by one |
| Fairness.StreakRestarts | fiberize/src/fiberize/detail/multitaskscheduler.cpp:206-229 | A turn that dispatches the other class, or one of ownedLoop that dispatches none, restarts the streak; one of unownedLoop that dispatches none leaves a streak below the limit |
| Fairness.FoundIsRunNext | fiberize/src/fiberize/detail/multitaskscheduler.cpp:219-277 | A soft task that ownedLoop finds is dispatched by the next turn of unownedLoop, without a look at the queues, and begins a streak |
| Idents.UniqueIdentGenerator.Generate | fiberize/src/fiberize/path.cpp:18-20 | An identifier is the token or-ed with the shifted generator, and the token advances |
| Idents.OrIsSum | fiberize/src/fiberize/path.cpp:18-20 | A bitwise or of a number below 2^k with a multiple of 2^k is their sum |
| Idents.Injective | fiberize/src/fiberize/path.cpp:18-20 | Within the bounds two identifiers are equal if and only if token and generator are, and fit in 64 bits |
| Idents.EqualExactlyWhen | fiberize/src/fiberize/path.cpp:18-20 | For all tokens and generators: two identifiers are equal if and only if the low 48 bits of the tokens are, and so are the ors of the high bits with the generators modulo 2^16 |
| Idents.TokenOverflow | fiberize/src/fiberize/path.cpp:18-20 | For every generator, token 2^48 repeats the first identifier of the generator itself if it is odd, and of the next one if it is even |
| Idents.GeneratorOverflow | fiberize/include/fiberize/path.hpp:202-208 | Generators 2^16 apart issue the same identifiers |
| Idents.IdentifiersAreUnique | fiberize/include/fiberize/path.hpp:202-208 | In any interleaving of up to 2^16 generators issuing up to 2^48 tokens each, no identifier is issued twice |
| Calculator.Reader.WaitForInput | fiberize/examples/calculator/main.cpp:16-21 | Feed events are awaited one by one until there is input, and no further |
| Calculator.Reader.SkipSpace | fiberize/examples/calculator/main.cpp:33-37 | White space is consumed across feed events, and nothing else |
| Calculator.Reader.ReadNumber | fiberize/examples/calculator/main.cpp:39-49 | number reads the longest run of digits modulo 2^32, rejects anything else, and waits at the end of the text |
| Calculator.Reader.ReadAtom | fiberize/examples/calculator/main.cpp:61-77 | For every chunking into feed events atom does on the stream what the parser function does on the text, and awaits no event it does not need |
| Calculator.Reader.ReadExpression | fiberize/examples/calculator/main.cpp:79-90 | The same for expression |
| Calculator.Reader.Iterate | fiberize/examples/calculator/main.cpp:103-117 | The same for one iteration of the driver, which drops the feed events in the mailbox before it sends a value |
| Calculator.ExpressionConsumes | fiberize/examples/calculator/main.cpp:79-90 | Whether it succeeds or fails, the parser consumes a prefix of the text |
| Calculator.DriverProgresses | fiberize/examples/calculator/main.cpp:103-117 | Every iteration that does not wait for input reads at least one character, from the front; only one that sends a value drops anything, namely the pending feed events |
| CalculatorTheorems.LaysExactlyWhen | fiberize/examples/calculator/main.cpp:33-57 | What a layout is: white space, the characters of a token, and a layout of the rest |
| CalculatorTheorems.ParsesOnto | fiberize/examples/calculator/main.cpp:61-90 | Inside any context that ends it, every layout of an expression parses to its sum and leaves exactly what follows |
| CalculatorTheorems.ParsesExpression | fiberize/examples/calculator/main.cpp:79-90 | For every expression tree and layout the parser consumes exactly the text and yields the sum modulo 2^32 |
| CalculatorTheorems.DriverSends | fiberize/examples/calculator/main.cpp:103-112 | A statement is answered with its sum and read exactly to its semicolon |
| CalculatorTheorems.RemoveBlank | fiberize/examples/calculator/main.cpp:33-37 | White space taken out of a text anywhere between tokens changes nothing |
| CalculatorTheorems.ReadOrLost | fiberize/examples/calculator/main.cpp:96-118 | In a session every character of the text is read by the parser or dropped with its feed event |
| CalculatorTheorems.AnsweredExactlyWhen | fiberize/examples/calculator/main.cpp:96-118 | For every list of statements, layout, chunking and schedule of arrivals: each is answered, in order and from the whole of its text, if and only if nothing but white space is in the mailbox when process runs for a statement |
| CalculatorTheorems.LinesAnsweredExactlyWhen | fiberize/examples/calculator/main.cpp:137-142 | When every feed event ends a statement, the answers are right if and only if the schedule is so |
| CalculatorTheorems.WaitingIsSafe | fiberize/examples/calculator/main.cpp:137-142 | A sender of lines with at most one semicolon each that sends line k + 1 only after answer k disturbs nothing |
| CalculatorTheorems.WaitersAnsweredExactlyWhen | fiberize/examples/calculator/main.cpp:96-118 | Of a program sent one statement a line, after any number of answers, all statements are answered, in order and with their sums, if and only if the sender waits for each answer before it sends the next line |
| CalculatorTheorems.SecondStatementLost | fiberize/examples/calculator/main.cpp:109 | With "1;" and "2;" in the mailbox together the second statement is never answered |
| CalculatorTheorems.SummandLost | fiberize/examples/calculator/main.cpp:109 | A dropped event can leave a statement answered without its first summand |
| CalculatorGrammar.Characters | fiberize/examples/calculator/main.cpp:33-46 | The digits are the ten, each counting as its place among them; the white space is that of the C locale |
| CalculatorGrammar.NumberExactlyWhen | fiberize/examples/calculator/main.cpp:39-49 | number waits if and only if the text is all digits, rejects if and only if it begins with anything else, where it stands, and otherwise yields its longest run of digits modulo 2^32 |
| CalculatorGrammar.ExpressionIsLaid | fiberize/examples/calculator/main.cpp:61-90 | Whatever text the parser accepts lays out some expression tree up to where it stops, and the value is the tree's sum modulo 2^32 |
| CalculatorGrammar.SendsExactlyWhen | fiberize/examples/calculator/main.cpp:103-112 | The driver sends a value if and only if the text begins with a statement, the layout of an expression of that value and a semicolon |
| CalculatorGrammar.StatementIsAnswered | fiberize/examples/calculator/main.cpp:103-112 | A statement is answered with its value whatever follows it, and what follows is left |
| CalculatorGrammar.WaitsExactlyWhen | fiberize/examples/calculator/main.cpp:16-31 | The driver waits for more input if and only if the text begins some statement and no statement begins the text |
| CalculatorGrammar.SkipsOneCharacter | fiberize/examples/calculator/main.cpp:113-116 | When the driver rejects a text, it skips up to and including exactly one character: the first one with which no statement can begin so |
| CalculatorGrammar.RejectsWhateverFollows | fiberize/examples/calculator/main.cpp:113-116 | It rejects as soon as that character is there, whatever follows |

## Left out

- Stopping and shutdown of schedulers: contexts and tasks are deliberately abandoned there.
- libuv, timers, the filesystem wrappers and the other IO modes: an IO callback is a step of the owning scheduler's poll, and only the await mode is modelled.
- Boost.Context and stack memory: a context is an identity, and a switch saves it and moves the thread.
- Memory orders, spinning and idling: critical sections and atomics are atomic steps.
- Threads started by runTaskAsOSThread, and IO waits or pins on a fiberized thread: the single-task machine covers sends, resumes, process and suspend.
- Waits of a fiberized thread on a mutex, condition or promise: the tasks of `Waits.dfy` follow the protocol of multitasking schedulers, and what the wait queues rely on is not proved of the single-task machine.
- ownedLoop and unownedLoop as whole loops: their bodies are cut into the steps of the state machine, and attempts of dequeue and steal that find nothing are not steps.
- choosePriority inside the global machine: there a loop may take from either queue, which allows more runs than the code; `Fairness.dfy` treats the choice.
- Kill clearing the mailbox: DequeMailbox::clear frees payloads without popping them, so freeing is stated for dispatched events only.
- Handlers that throw in Listening mode after the task migrated, and handlers that throw in an actor's trailing process: assumed not to occur.
- Handlers that change the handlers of an event while it is dispatched: nobody starts to await its path then, and while somebody awaits a path no second event of it is dispatched inside the dispatch of a first; in `Handlers.dfy` the block is fixed during its dispatch.
- The kill handler that every task gets first: it is a handler like the others, grabbed once when it is bound.
- The closure of a handler, and the order of the blocks when kill clears them: any order, and a HandlerRef that goes with a closure is released in a step of its own, before or after.
- Resumes of dead tasks reaching freed memory: they are steps on a dead identity that change nothing but its counter.
- Wrap-around of the 64-bit tickets of Mutex and Condition and of handler counts: they are unbounded, so 2^64 calls are not covered.
- Exceptions from memory allocation: pushing to a queue always succeeds, and so does constructing a promise's value.
- Promise.LockDropped: stands for the other threads while signalAll has dropped the lock; its contract is what they may do, and its body does nothing.
- Future and fiber references, builders, Result's storage, path printing and hashing, and the other examples: thin wrappers that would only add easy members.
