/**
 * The objects of the runtime as they are updated in place: the task record with its 64-bit
 * counters, and a MultiTaskScheduler's queues, streak and stash.  Each method is a critical
 * section, proved to be the step of Tasks, Runtime or Fairness of the same name.
 */
module Schedulers {
  import opened Options
  import Tasks
  import Runtime
  import Fairness
  import Events

  class TaskRecord {
    var status: Tasks.Status
    var scheduled: bool
    var resumes: nat
    var resumesExpected: nat
    var stopped: bool
    var pin: Option<nat>
    const mailbox: Events.DequeMailbox
    ghost var model: Tasks.Task

    /** The fields hold the modelled task; the counters are the low 64 bits of its counts. */
    ghost predicate Valid()
      reads this, mailbox
    {
      model.status == status && model.scheduled == scheduled && model.stopped == stopped && model.pin == pin
      && model.mailbox == mailbox.pending && resumes == model.resumes % Tasks.WORD
      && (model.expected.Some? ==> resumesExpected == model.expected.value % Tasks.WORD)
    }

    constructor (home: Option<nat>)
      ensures Valid() && model == Tasks.NewTask(home) && fresh(mailbox)
    {
      status := Tasks.Starting;
      scheduled := false;
      resumes := 0;
      resumesExpected := *;
      stopped := false;
      pin := home;
      mailbox := new Events.DequeMailbox();
      model := Tasks.NewTask(home);
    }

    /** MultiTaskScheduler::resume up to the unlock; the caller then pushes the task. */
    method Reschedule()
      requires Valid()
      modifies this
      ensures Valid() && model == Tasks.Rescheduled(old(model))
    {
      Tasks.WordUp(model.resumes);
      resumes := (resumes + 1) % Tasks.WORD;
      scheduled := true;
      model := Tasks.Rescheduled(model);
    }

    /** context::detail::resume; the status tells which queue the task is pushed to, if any. */
    method Resume() returns (push: Option<Tasks.Status>)
      requires Valid()
      modifies this
      ensures Valid() && model == Tasks.Resumed(old(model))
      ensures push == if Tasks.Resumable(old(model)) then Some(old(status)) else None
    {
      Tasks.WordUp(model.resumes);
      resumes := (resumes + 1) % Tasks.WORD;
      model := model.(resumes := model.resumes + 1);
      if (!status.Suspended? && !status.Starting? && !status.Listening?) || scheduled {
        return None;
      }
      push := Some(status);
      Reschedule();
    }

    method Send(event: Tasks.Event) returns (push: Option<Tasks.Status>)
      requires Valid()
      modifies this, mailbox
      ensures Valid() && model == Tasks.Sent(old(model), event)
      ensures push == if Tasks.Resumable(old(model)) then Some(old(status)) else None
    {
      mailbox.Enqueue(event);
      model := model.(mailbox := model.mailbox + [event], enqueued := model.enqueued + [event]);
      push := Resume();
    }

    /** One dequeue of process(); when it finds nothing the expected resumes are recorded. */
    method ProcessSection() returns (event: Option<Tasks.Event>)
      requires Valid() && Tasks.Executing(model)
      modifies this, mailbox
      ensures Valid()
      ensures old(model.stopped) || old(model.mailbox) == [] ==>
                event.None? && model == Tasks.Apply(old(model), Tasks.Process)
      ensures !old(model.stopped) && old(model.mailbox) != [] ==>
                event == Some(old(model.mailbox[0])) && model == Tasks.Apply(old(model), Tasks.Dispatch)
    {
      event := None;
      if !stopped {
        event := mailbox.Dequeue();
      }
      if event.Some? {
        model := Tasks.Apply(model, Tasks.Dispatch);
      } else {
        resumesExpected := resumes;
        model := Tasks.Apply(model, Tasks.Process);
      }
    }

    method Yield()
      requires Valid() && Tasks.Executing(model)
      modifies this
      ensures Valid() && model == Tasks.Apply(old(model), Tasks.Yield)
    {
      resumesExpected := Tasks.NEVER;
      model := Tasks.Apply(model, Tasks.Yield);
    }

    method Stop()
      requires Valid() && Tasks.Executing(model)
      modifies this
      ensures Valid() && model == Tasks.Apply(old(model), Tasks.Stop)
    {
      stopped := true;
      model := Tasks.Apply(model, Tasks.Stop);
    }

    /** finishSuspending; returns whether the task is to be pushed. */
    method FinishSuspending() returns (push: bool)
      requires Valid() && status.Running? && model.expected.Some?
      modifies this
      ensures Valid() && model == Tasks.FinishedSuspending(old(model)) && push == scheduled
    {
      status := Tasks.Suspended;
      scheduled := false;
      push := resumes != resumesExpected;
      model := model.(status := Tasks.Suspended, scheduled := false);
      if push {
        Reschedule();
      }
    }

    /** The end of an unownedLoop iteration: true if the task is to be pushed. */
    method Return() returns (push: bool)
      requires Valid() && Tasks.Guard(model, Tasks.Return) && (!stopped ==> model.expected.Some?) && !scheduled
      modifies this
      ensures Valid() && model == Tasks.Returned(old(model)) && push == scheduled
    {
      push := false;
      if !stopped {
        status := Tasks.Listening;
        push := resumesExpected != resumes;
        model := model.(status := Tasks.Listening, stack := None);
        if push {
          Reschedule();
        }
      } else {
        status := Tasks.Dead;
        scheduled := false;
        model := Tasks.Returned(model);
      }
    }

    /** ScopedPin's constructor on the scheduler that executes the task; returns its wasPinned. */
    method PinTo(scheduler: nat) returns (wasPinned: bool)
      requires Valid() && Tasks.Executing(model)
      modifies this
      ensures Valid() && model == Tasks.Apply(old(model), Tasks.Pin(scheduler)) && wasPinned == old(pin).Some?
    {
      wasPinned := pin.Some?;
      if pin.None? {
        pin := Some(scheduler);
      }
      model := Tasks.Apply(model, Tasks.Pin(scheduler));
    }

    /** ScopedPin's destructor, for the innermost pin. */
    method Unpin(wasPinned: bool)
      requires Valid() && Tasks.Guard(model, Tasks.Unwind)
      requires wasPinned == model.frames[|model.frames| - 1].wasPinned
      modifies this
      ensures Valid() && model == Tasks.Apply(old(model), Tasks.Unwind)
    {
      if !wasPinned {
        pin := None;
      }
      model := Tasks.Apply(model, Tasks.Unwind);
    }
  }

  class MultiTaskScheduler {
    var softTasks: seq<nat>
    var hardTasks: seq<nat>
    var sameStreak: nat
    var suspendingTask: Option<nat>
    var currentTask: Option<nat>
    var unowned: Option<nat>
    var stash: seq<nat>
    ghost var pc: Runtime.Pc
    ghost var softPushes: multiset<nat>
    ghost var hardPushes: multiset<nat>

    /** The scheduler of the machine; where its thread is and the pushes in flight are not fields. */
    ghost function View(): Runtime.Scheduler
      reads this
    {
      Runtime.Scheduler(pc, currentTask, suspendingTask, unowned, stash, softTasks, hardTasks, softPushes, hardPushes)
    }

    constructor (context: nat)
      ensures View() == Runtime.NewScheduler(context) && sameStreak == 0
    {
      softTasks, hardTasks := [], [];
      sameStreak := 0;
      suspendingTask, currentTask, unowned := None, None, Some(context);
      stash := [];
      pc := Runtime.LoopTop;
      softPushes, hardPushes := multiset{}, multiset{};
    }

    /** The end of resume: a push in flight reaches its queue. */
    method Push(t: nat, q: Runtime.Class)
      requires t in Runtime.Pushes(View(), q)
      modifies this
      ensures View() == Runtime.Delivered(old(View()), t, q) && sameStreak == old(sameStreak)
      ensures softTasks == (if q.Soft? then [t] else []) + old(softTasks)
      ensures hardTasks == (if q.Hard? then [t] else []) + old(hardTasks)
    {
      if q.Soft? {
        softTasks := [t] + softTasks;
        softPushes := softPushes - multiset{t};
      } else {
        hardTasks := [t] + hardTasks;
        hardPushes := hardPushes - multiset{t};
      }
    }

    /** dequeueSoft, dequeueHard. */
    method DequeueFrom(q: Runtime.Class)
      requires currentTask.None?
      modifies this
      ensures View() == if Runtime.Queue(old(View()), q) == [] then old(View()) else Runtime.Dequeued(old(View()), q)
      ensures sameStreak == old(sameStreak)
    {
      if q.Soft? && softTasks != [] {
        currentTask := Some(softTasks[0]);
        softTasks := softTasks[1..];
      } else if q.Hard? && hardTasks != [] {
        currentTask := Some(hardTasks[0]);
        hardTasks := hardTasks[1..];
      }
    }

    /** stealSoft, stealHard: the back of the queue, unless that task is pinned. */
    method StealFrom(q: Runtime.Class, pinned: set<nat>) returns (t: Option<nat>)
      modifies this
      ensures var queue := Runtime.Queue(old(View()), q);
              if queue != [] && Runtime.Last(queue) !in pinned
              then t == Some(Runtime.Last(queue)) && View() == Runtime.Robbed(old(View()), q)
              else t.None? && View() == old(View())
      ensures sameStreak == old(sameStreak)
    {
      t := None;
      if q.Soft? && softTasks != [] && softTasks[|softTasks| - 1] !in pinned {
        t := Some(softTasks[|softTasks| - 1]);
        softTasks := softTasks[..|softTasks| - 1];
      } else if q.Hard? && hardTasks != [] && hardTasks[|hardTasks| - 1] !in pinned {
        t := Some(hardTasks[|hardTasks| - 1]);
        hardTasks := hardTasks[..|hardTasks| - 1];
      }
    }

    /**
     * dequeue, when nobody else touches the queues meanwhile: the attempts of the fairness
     * argument, which come down to the front of the preferred queue, else of the other one.
     */
    method Dequeue(priority: Runtime.Class)
      requires currentTask.None?
      modifies this
      ensures View() == Fairness.Attempts(old(View()), priority, Fairness.QUIET, 0).c
      ensures var other := Fairness.Other(priority);
              View() == if Runtime.Queue(old(View()), priority) != [] then Runtime.Dequeued(old(View()), priority)
                        else if Runtime.Queue(old(View()), other) != [] then Runtime.Dequeued(old(View()), other)
                        else old(View())
      ensures sameStreak == old(sameStreak)
    {
      Fairness.QuietAttempts(View(), priority);
      var i := 0;
      while i < 2
        invariant 0 <= i <= 2 && View() == old(View()) && sameStreak == old(sameStreak)
        invariant i > 0 ==> softTasks == [] && hardTasks == []
      {
        DequeueFrom(priority);
        if currentTask.Some? {
          return;
        }
        DequeueFrom(Fairness.Other(priority));
        if currentTask.Some? {
          return;
        }
        i := i + 1;
      }
    }

    method ChoosePriority(preferred: Runtime.Class) returns (p: Runtime.Class)
      modifies this
      ensures (sameStreak, p) == Fairness.Choose(old(sameStreak), preferred)
      ensures View() == old(View())
    {
      p := preferred;
      if sameStreak >= Fairness.LIMIT {
        sameStreak := 0;
        p := if preferred.Hard? then Runtime.Soft else Runtime.Hard;
      }
    }

    /** finishSuspending, with the record of the suspending task; a push is left in flight. */
    method FinishSuspending(task: TaskRecord)
      requires task.Valid()
      requires suspendingTask.Some? ==> task.status.Running? && task.model.expected.Some?
      modifies this, task
      ensures task.Valid() && sameStreak == old(sameStreak)
      ensures old(suspendingTask).None? ==> task.model == old(task.model) && View() == Runtime.Finished(old(View()))
      ensures old(suspendingTask).Some? ==>
                task.model == Tasks.FinishedSuspending(old(task.model))
                && View() == if task.model.scheduled
                             then Runtime.Pushing(Runtime.Finished(old(View())), old(suspendingTask).value,
                                                  Tasks.Suspended)
                             else Runtime.Finished(old(View()))
    {
      if suspendingTask.Some? {
        var push := task.FinishSuspending();
        if push {
          hardPushes := hardPushes + multiset{suspendingTask.value};
        }
        suspendingTask := None;
      }
      pc := Runtime.Finished(View()).pc;
    }

    /** contexts is the number of stack contexts allocated so far, by all schedulers. */
    method StashGet(contexts: nat) returns (context: nat, contexts': nat)
      modifies this
      ensures (context, stash, contexts') == Runtime.StashGet(old(stash), contexts)
      ensures View() == old(View()).(stash := stash) && sameStreak == old(sameStreak)
    {
      if stash != [] {
        context := stash[|stash| - 1];
        stash := stash[..|stash| - 1];
        contexts' := contexts;
      } else {
        context := contexts;
        contexts' := contexts + 1;
      }
    }

    method StashPut(context: nat) returns (freed: multiset<nat>)
      modifies this
      ensures (stash, freed) == Runtime.StashPut(old(stash), context)
      ensures View() == old(View()).(stash := stash) && sameStreak == old(sameStreak)
    {
      if |stash| < Runtime.STASH_SIZE {
        stash := stash + [context];
        freed := multiset{};
      } else {
        freed := multiset{context};
      }
    }
  }
}
