/**
 * What the steps of the runtime do, seen from outside: at which ends tasks enter and leave the
 * queues, when stack contexts are reused, and what the histories of a task's mailbox stand for.
 */
module RuntimeLaws {
  import opened Options
  import opened Runtime
  import RuntimeTheorems
  import Tasks

  // ------------------------------------------------------------------ the queues

  /** The thread of scheduler i is looking for a task. */
  predicate Looking(s: State, i: nat) {
    (At(s, i, LoopPick) || At(s, i, OwnedPick)) && s.schedulers[i].current.None?
  }

  function OtherClass(q: Class): Class { if q.Soft? then Hard else Soft }

  /** The owner of a queue takes the task pushed last, and finds behind it the queue that was there before. */
  lemma OwnerTakesLast(s: State, i: nat, t: nat, q: Class)
    requires Looking(s, i) && t in Pushes(s.schedulers[i], q)
    ensures Enabled(s, Deliver(i, t, q)) && Enabled(Apply(s, Deliver(i, t, q)), Dequeue(i, q))
    ensures var c := Apply(Apply(s, Deliver(i, t, q)), Dequeue(i, q)).schedulers[i];
            c.current == Some(t) && c.soft == s.schedulers[i].soft && c.hard == s.schedulers[i].hard
            && Pushes(c, q) == Pushes(s.schedulers[i], q) - multiset{t}
            && Pushes(c, OtherClass(q)) == Pushes(s.schedulers[i], OtherClass(q))
  {
    var s1 := Apply(s, Deliver(i, t, q));
    assert Queue(s1.schedulers[i], q) == [t] + Queue(s.schedulers[i], q);
    assert Queue(s1.schedulers[i], q)[1..] == Queue(s.schedulers[i], q);
  }

  /** Who looks for a task can take the front of either queue of its own that has one. */
  lemma OwnerTakesFront(s: State, i: nat, q: Class)
    requires Looking(s, i)
    ensures Enabled(s, Dequeue(i, q)) <==> Queue(s.schedulers[i], q) != []
    ensures Enabled(s, Dequeue(i, q)) ==>
              var c, d := s.schedulers[i], Apply(s, Dequeue(i, q)).schedulers[i];
              d.current.Some? && Queue(c, q) == [d.current.value] + Queue(d, q)
              && Queue(c, OtherClass(q)) == Queue(d, OtherClass(q))
  {
  }

  /** A loop that found nothing polls for IO, and then looks for a task again. */
  lemma IdleLoopsPoll(s: State, i: nat)
    requires Looking(s, i) && At(s, i, LoopPick)
    ensures Enabled(s, Idle(i)) && Polls(Apply(s, Idle(i)), i)
    ensures s.schedulers[i].suspending.None? ==>
              Enabled(Apply(s, Idle(i)), Finish(i)) && Looking(Apply(Apply(s, Idle(i)), Finish(i)), i)
  {
  }

  predicate Unpinned(s: State, t: nat) { t < |s.tasks| && s.tasks[t].pin.None? }

  /** Who looks for a task can steal from any queue whose back is not pinned, and takes just that. */
  lemma ThiefTakesBack(s: State, i: nat, j: nat, q: Class)
    requires Looking(s, i) && j < |s.schedulers| && Queue(s.schedulers[j], q) != []
    ensures Enabled(s, Steal(i, j, q)) <==> Unpinned(s, Last(Queue(s.schedulers[j], q)))
    ensures Enabled(s, Steal(i, j, q)) ==>
              var queue, s' := Queue(s.schedulers[j], q), Apply(s, Steal(i, j, q));
              s'.schedulers[i].current == Some(Last(queue)) && Queue(s'.schedulers[j], q) == queue[..|queue| - 1]
  {
  }

  /** A thief takes a task pushed to an empty queue, if it is not pinned. */
  lemma ThiefTakesOnly(s: State, i: nat, j: nat, t: nat, q: Class)
    requires Looking(s, i) && j < |s.schedulers| && t in Pushes(s.schedulers[j], q)
    requires Queue(s.schedulers[j], q) == [] && t < |s.tasks|
    ensures var s1 := Apply(s, Deliver(j, t, q));
            (Enabled(s1, Steal(i, j, q)) <==> s.tasks[t].pin.None?)
            && (Enabled(s1, Steal(i, j, q)) ==>
                  Apply(s1, Steal(i, j, q)).schedulers[i].current == Some(t)
                  && Queue(Apply(s1, Steal(i, j, q)).schedulers[j], q) == [])
  {
    var s1 := Apply(s, Deliver(j, t, q));
    assert Queue(s1.schedulers[j], q) == [t] + [];
    assert Looking(s1, i);
  }

  /**
   * A thief takes the task pushed first: a push to a queue with tasks changes nothing for it, and
   * is in front of what it leaves.
   */
  lemma ThiefTakesFirst(s: State, i: nat, j: nat, t: nat, q: Class)
    requires Looking(s, i) && j < |s.schedulers| && t in Pushes(s.schedulers[j], q)
    requires Queue(s.schedulers[j], q) != []
    ensures var s1 := Apply(s, Deliver(j, t, q)); Enabled(s1, Steal(i, j, q)) <==> Enabled(s, Steal(i, j, q))
    ensures Enabled(s, Steal(i, j, q)) ==>
              var a, b := Apply(Apply(s, Deliver(j, t, q)), Steal(i, j, q)), Apply(s, Steal(i, j, q));
              a.schedulers[i].current == b.schedulers[i].current != None
              && Queue(a.schedulers[j], q) == [t] + Queue(b.schedulers[j], q)
  {
    PushIsInFront(s, j, t, q);
    LooksOn(s, i, j, t, q);
    ThiefTakesBack(s, i, j, q);
    ThiefTakesBack(Apply(s, Deliver(j, t, q)), i, j, q);
    BackOf(t, Queue(s.schedulers[j], q));
  }

  lemma LooksOn(s: State, i: nat, j: nat, t: nat, q: Class)
    requires Looking(s, i) && Enabled(s, Deliver(j, t, q))
    ensures Looking(Apply(s, Deliver(j, t, q)), i) && Apply(s, Deliver(j, t, q)).tasks == s.tasks
  {
  }

  lemma BackOf(t: nat, queue: seq<nat>)
    requires queue != []
    ensures Last([t] + queue) == Last(queue)
    ensures ([t] + queue)[..|queue|] == [t] + queue[..|queue| - 1]
  {
  }

  lemma PushIsInFront(s: State, j: nat, t: nat, q: Class)
    requires Enabled(s, Deliver(j, t, q))
    ensures Queue(Apply(s, Deliver(j, t, q)).schedulers[j], q) == [t] + Queue(s.schedulers[j], q)
  {
  }

  // ------------------------------------------------------------------ tasks built pinned

  lemma HomeStays(s: State, step: Step, t: nat)
    requires Enabled(s, step) && t < |s.tasks|
    ensures t < |Apply(s, step).tasks| && Apply(s, step).tasks[t].home == s.tasks[t].home
  {
  }

  lemma {:induction false} RunKeepsHome(s: State, steps: seq<Step>, t: nat)
    requires Legal(s, steps) && t < |s.tasks|
    ensures t < |After(s, steps).tasks| && After(s, steps).tasks[t].home == s.tasks[t].home
    decreases |steps|
  {
    if steps != [] {
      HomeStays(s, steps[0], t);
      RunKeepsHome(Apply(s, steps[0]), steps[1..], t);
    }
  }

  /** A task can be built pinned to any scheduler, and is then run and queued nowhere else, ever. */
  lemma BuiltPinnedStaysHome(s: State, home: nat, steps: seq<Step>, i: nat)
    requires RuntimeTheorems.Reachable(s) && home < |s.schedulers|
    ensures Enabled(s, Create(Some(home)))
    ensures Legal(Apply(s, Create(Some(home))), steps) ==>
              var t, s' := |s.tasks|, After(Apply(s, Create(Some(home))), steps);
              t < |s'.tasks| && s'.tasks[t].pin == Some(home)
              && (RuntimeTheorems.Executes(s', i, t) || RuntimeTheorems.OnItsWay(s', i, t) ==> i == home)
  {
    var s1 := RuntimeTheorems.Go(s, Create(Some(home)));
    if Legal(s1, steps) {
      var t, s' := |s.tasks|, After(s1, steps);
      RunKeepsHome(s1, steps, t);
      ReachesOn(s1, steps);
      RuntimeTheorems.ReachableInv(s');
      assert TaskOk(s'.tasks[t], |s'.schedulers|);
      if RuntimeTheorems.Executes(s', i, t) || RuntimeTheorems.OnItsWay(s', i, t) {
        RuntimeTheorems.PinnedStaysHome(s', i, t);
      }
    }
  }

  lemma ReachesOn(s: State, steps: seq<Step>)
    requires RuntimeTheorems.Reachable(s) && Legal(s, steps)
    ensures RuntimeTheorems.Reachable(After(s, steps))
  {
    var n: nat, before: seq<Step> :| Legal(Initial(n), before) && s == After(Initial(n), before);
    RuntimeTheorems.RunsCompose(Initial(n), before, steps);
  }

  // ------------------------------------------------------------------ stack contexts

  /**
   * A thread that needs a context takes the one it stashed last, and allocates one only if it has
   * stashed none; and one that it no longer needs is stashed, unless 256 are.
   */
  lemma StashIsReused(s: State, i: nat)
    ensures Enabled(s, JumpToLoop(i)) ==>
              var c, s' := s.schedulers[i], Apply(s, JumpToLoop(i));
              var c' := s'.schedulers[i];
              c'.unowned.Some?
              && if c.stash == [] then c'.unowned.value == s.contexts && s'.contexts == s.contexts + 1 && c'.stash == []
                 else c.stash == c'.stash + [c'.unowned.value] && s'.contexts == s.contexts
    ensures Enabled(s, StashUnowned(i)) && s.schedulers[i].unowned.Some? ==>
              var c, s' := s.schedulers[i], Apply(s, StashUnowned(i));
              var c' := s'.schedulers[i];
              c'.unowned.None? && s'.contexts == s.contexts
              && if |c.stash| < 256 then c'.stash == c.stash + [c.unowned.value] && s'.freed == s.freed
                 else c'.stash == c.stash && s'.freed == s.freed + multiset{c.unowned.value}
  {
  }

  // ------------------------------------------------------------------ resumes

  /** The scheduler on which a step resumes task t: where the sender runs, or the owner of the request. */
  function Resumer(step: Step, t: nat): Option<nat> {
    if step.External? && step.t == t then Some(step.target)
    else if step.IoCallback? && step.t == t then Some(step.i)
    else None
  }

  /** Task t waits for somebody to schedule it. */
  predicate Waits(t: Task) {
    (t.status.Starting? || t.status.Listening? || t.status.Suspended?) && !t.scheduled
  }

  /**
   * A send, a resume or a callback schedules exactly the tasks that wait to be, and pushes them to
   * the scheduler they are pinned to, or else to the resumer's: new and listening tasks to its soft
   * queue, suspended ones to its hard queue.  It does nothing else to any scheduler.
   */
  lemma ResumesArePushed(s: State, step: Step, t: nat, q: Class)
    requires RuntimeTheorems.Reachable(s) && Enabled(s, step) && t < |s.tasks| && Resumer(step, t).Some?
    ensures var s', task := Apply(s, step), s.tasks[t];
            var k := if task.pin.Some? then task.pin.value else Resumer(step, t).value;
            k < |s.schedulers| == |s'.schedulers| && s'.tasks[t].status == task.status
            && (s'.tasks[t].scheduled <==> task.scheduled || Waits(task))
            && Pushes(s'.schedulers[k], q)
               == Pushes(s.schedulers[k], q)
                  + (if Waits(task) && (q.Hard? <==> task.status.Suspended?) then multiset{t} else multiset{})
            && (forall j :: 0 <= j < |s.schedulers| && (j != k || !Waits(task)) ==> s'.schedulers[j] == s.schedulers[j])
  {
    RuntimeTheorems.ReachableInv(s);
    assert TaskOk(s.tasks[t], |s.schedulers|);
    var k := Route(s.tasks[t], Resumer(step, t).value);
    ResumesRoute(s, step, t);
    RoutedPush(s, t, Apply(s, step).tasks[t], k, q);
  }

  lemma ResumesRoute(s: State, step: Step, t: nat)
    requires Enabled(s, step) && t < |s.tasks| && Resumer(step, t).Some?
    ensures var x, k := Apply(s, step).tasks[t], Route(s.tasks[t], Resumer(step, t).value);
            k < |s.schedulers| && Apply(s, step) == DoResume(s, t, x, k) && x.status == s.tasks[t].status
            && (x.scheduled <==> s.tasks[t].scheduled || Waits(s.tasks[t]))
  {
  }

  lemma RoutedPush(s: State, t: nat, x: Task, k: nat, q: Class)
    requires t < |s.tasks| && k < |s.schedulers|
    ensures var s', task := DoResume(s, t, x, k), s.tasks[t];
            |s'.schedulers| == |s.schedulers|
            && Pushes(s'.schedulers[k], q)
               == Pushes(s.schedulers[k], q)
                  + (if Waits(task) && (q.Hard? <==> task.status.Suspended?) then multiset{t} else multiset{})
            && (forall j :: 0 <= j < |s.schedulers| && (j != k || !Waits(task)) ==> s'.schedulers[j] == s.schedulers[j])
  {
  }

  /** A task that is built waits for its first resume, with an empty mailbox; nobody else notices. */
  lemma BuiltTasksWait(s: State, home: Option<nat>)
    requires Enabled(s, Create(home))
    ensures var s' := Apply(s, Create(home));
            |s'.tasks| == |s.tasks| + 1 && s'.tasks[..|s.tasks|] == s.tasks && s'.schedulers == s.schedulers
            && (var task := s'.tasks[|s.tasks|];
                Waits(task) && task.status.Starting? && task.pin == home && task.mailbox == [] && !task.stopped
                && task.frames == [] && task.stack.None?)
  {
  }

  // ------------------------------------------------------------------ the code of a task

  /** The state after the code that scheduler i executes has acted. */
  function Acted(s: State, i: nat, a: Tasks.Action): State
    requires Enabled(s, RunCode(i, a))
  {
    Apply(s, RunCode(i, a))
  }

  /** The code that scheduler i executes can do this and then suspend. */
  predicate SuspendsBy(s: State, i: nat, a: Tasks.Action) {
    Enabled(s, RunCode(i, a)) && Enabled(Acted(s, i, a), Suspend(i))
  }

  lemma ThreadHasCode(s: State, i: nat)
    requires RuntimeTheorems.Reachable(s) && At(s, i, Code)
    ensures HasCurrent(s, i) && Tasks.Executing(Current(s, i)) && Current(s, i).stack.Some?
  {
    RuntimeTheorems.ReachableInv(s);
    assert SchedulerOk(s.schedulers[i], i, s.tasks);
    assert TaskOk(Current(s, i), |s.schedulers|);
  }

  /**
   * In every reachable state code that is executed can yield and suspend, take the first event of
   * its mailbox, and process a mailbox that is empty and suspend.
   */
  lemma CodeCanSuspend(s: State, i: nat)
    requires RuntimeTheorems.Reachable(s) && At(s, i, Code)
    ensures HasCurrent(s, i) && SuspendsBy(s, i, Tasks.Yield)
    ensures Current(s, i).mailbox != [] <==> Enabled(s, RunCode(i, Tasks.Dispatch))
    ensures Current(s, i).mailbox == [] ==> SuspendsBy(s, i, Tasks.Process)
  {
    ThreadHasCode(s, i);
  }

  /** Waiting for a request that is not complete it can find that so, drain its mailbox, and suspend. */
  lemma CodeCanSuspendForIo(s: State, i: nat)
    requires RuntimeTheorems.Reachable(s) && At(s, i, Code) && HasCurrent(s, i)
    requires Tasks.Top(Current(s, i)).Some? && !Tasks.Top(Current(s, i)).value.condition && Current(s, i).mailbox == []
    ensures Enabled(s, RunCode(i, Tasks.CheckIo)) && SuspendsBy(Acted(s, i, Tasks.CheckIo), i, Tasks.ProcessIo)
  {
    ThreadHasCode(s, i);
  }

  /** It can start a request on its own scheduler, and then waits for it, pinned; and leave its innermost frame. */
  lemma CodeCanWait(s: State, i: nat)
    requires RuntimeTheorems.Reachable(s) && At(s, i, Code)
    ensures Enabled(s, RunCode(i, Tasks.AwaitIo(i)))
    ensures var s' := Acted(s, i, Tasks.AwaitIo(i));
            HasCurrent(s', i) && Current(s', i).pin == Some(i) && Tasks.Top(Current(s', i)) == Some(Tasks.Io(i, false))
    ensures HasCurrent(s, i) && (Current(s, i).frames != [] <==> Enabled(s, RunCode(i, Tasks.Unwind)))
  {
    ThreadHasCode(s, i);
    PinIsOwn(s, i);
  }

  /** It can stop, and outside all frames it can then return and is dead. */
  lemma CodeCanReturn(s: State, i: nat)
    requires RuntimeTheorems.Reachable(s) && At(s, i, Code)
    ensures HasCurrent(s, i) && Enabled(s, RunCode(i, Tasks.Stop))
    ensures Current(s, i).frames == [] ==>
              var s', t := Acted(s, i, Tasks.Stop), s.schedulers[i].current.value;
              Enabled(s', ReturnTask(i)) && t < |Apply(s', ReturnTask(i)).tasks|
              && Apply(s', ReturnTask(i)).tasks[t].status.Dead?
  {
    ThreadHasCode(s, i);
    StopEnds(s, i);
  }

  lemma StopEnds(s: State, i: nat)
    requires At(s, i, Code) && HasCurrent(s, i) && Tasks.Executing(Current(s, i)) && Current(s, i).stack.Some?
    ensures Enabled(s, RunCode(i, Tasks.Stop))
    ensures var s' := Acted(s, i, Tasks.Stop);
            HasCurrent(s', i) && Current(s', i) == Tasks.Apply(Current(s, i), Tasks.Stop) && At(s', i, Code)
            && s'.schedulers == s.schedulers
  {
  }

  lemma PinIsOwn(s: State, i: nat)
    requires RuntimeTheorems.Reachable(s) && At(s, i, Code)
    ensures HasCurrent(s, i) && (Current(s, i).pin.None? || Current(s, i).pin == Some(i))
  {
    RuntimeTheorems.ReachableInv(s);
    assert SchedulerOk(s.schedulers[i], i, s.tasks);
  }

  // ------------------------------------------------------------------ events

  predicate Sends(step: Step, t: nat) { step.External? && step.t == t && step.a.Send? }

  /** The events that a run sends to a task, in the order in which it does. */
  function Sent(steps: seq<Step>, t: nat): seq<Tasks.Event> {
    if steps == [] then []
    else if Sends(steps[0], t) then [steps[0].a.event] + Sent(steps[1..], t)
    else Sent(steps[1..], t)
  }

  /** The step makes the code of a task take an event from the mailbox. */
  predicate Dispatches(s: State, step: Step, t: nat) {
    step.RunCode? && step.a.Dispatch? && step.i < |s.schedulers| && s.schedulers[step.i].current == Some(t)
  }

  /** How many events the code of a task takes in a run. */
  function Taken(s: State, steps: seq<Step>, t: nat): nat
    requires Legal(s, steps)
    decreases |steps|
  {
    if steps == [] then 0
    else (if Dispatches(s, steps[0], t) then 1 else 0) + Taken(Apply(s, steps[0]), steps[1..], t)
  }

  function EnqueuedOf(s: State, t: nat): seq<Tasks.Event> { if t < |s.tasks| then s.tasks[t].enqueued else [] }

  function DispatchedOf(s: State, t: nat): nat { if t < |s.tasks| then |s.tasks[t].dispatched| else 0 }

  lemma StepHistory(s: State, step: Step, t: nat)
    requires Enabled(s, step)
    ensures EnqueuedOf(Apply(s, step), t)
            == if Sends(step, t) then EnqueuedOf(s, t) + [step.a.event] else EnqueuedOf(s, t)
    ensures DispatchedOf(Apply(s, step), t) == DispatchedOf(s, t) + if Dispatches(s, step, t) then 1 else 0
  {
    if step.RunCode? {
      CodeHistory(Current(s, step.i), step.a);
    } else if !step.External? {
      HistoryStays(s, step, t);
    }
  }

  lemma CodeHistory(t: Task, a: Tasks.Action)
    requires Tasks.ByCode(a) && Tasks.Guard(t, a)
    ensures Tasks.Apply(t, a).enqueued == t.enqueued
    ensures |Tasks.Apply(t, a).dispatched| == |t.dispatched| + if a.Dispatch? then 1 else 0
  {
  }

  lemma HistoryStays(s: State, step: Step, t: nat)
    requires Enabled(s, step) && !step.RunCode? && !step.External?
    ensures EnqueuedOf(Apply(s, step), t) == EnqueuedOf(s, t) && DispatchedOf(Apply(s, step), t) == DispatchedOf(s, t)
  {
  }

  lemma {:induction false} RunHistory(s: State, steps: seq<Step>, t: nat)
    requires Legal(s, steps)
    ensures EnqueuedOf(After(s, steps), t) == EnqueuedOf(s, t) + Sent(steps, t)
    ensures DispatchedOf(After(s, steps), t) == DispatchedOf(s, t) + Taken(s, steps, t)
    decreases |steps|
  {
    if steps != [] {
      StepHistory(s, steps[0], t);
      RunHistory(Apply(s, steps[0]), steps[1..], t);
    }
  }

  /**
   * What a task has dispatched after a run are the first of the events that the run sent to it, in
   * the order of the sends and as many as its code took; the others are in its mailbox.
   */
  lemma EventsAreThoseSent(n: nat, steps: seq<Step>, t: nat)
    requires Legal(Initial(n), steps) && t < |After(Initial(n), steps).tasks|
    ensures var task := After(Initial(n), steps).tasks[t];
            Taken(Initial(n), steps, t) <= |Sent(steps, t)|
            && task.dispatched == Sent(steps, t)[..Taken(Initial(n), steps, t)]
            && task.mailbox == Sent(steps, t)[Taken(Initial(n), steps, t)..]
  {
    HistoryFromStart(n, steps, t);
    RuntimeTheorems.EventsInOrder(After(Initial(n), steps), t);
  }

  lemma HistoryFromStart(n: nat, steps: seq<Step>, t: nat)
    requires Legal(Initial(n), steps)
    ensures EnqueuedOf(After(Initial(n), steps), t) == Sent(steps, t)
    ensures DispatchedOf(After(Initial(n), steps), t) == Taken(Initial(n), steps, t)
  {
    RunHistory(Initial(n), steps, t);
    assert EnqueuedOf(Initial(n), t) == [];
  }

  // ------------------------------------------------------------------ IO requests

  /**
   * The callback of a request sets its condition, so that the task no longer waits for it, and
   * resumes the task.
   */
  lemma CallbackCompletes(s: State, i: nat, t: nat, k: nat)
    requires Enabled(s, IoCallback(i, t, k))
    ensures var task, task' := s.tasks[t], Apply(s, IoCallback(i, t, k)).tasks[t];
            |task'.frames| == |task.frames| && task'.frames[k].io.Some? && task'.frames[k].io.value.condition
            && (forall l :: 0 <= l < |task.frames| && l != k ==> task'.frames[l] == task.frames[l])
            && (k == |task.frames| - 1 ==> !Tasks.Guard(task', Tasks.CheckIo))
            && task'.resumes > task.resumes
  {
  }

  /** Nothing else completes a request. */
  lemma OnlyCallbacksComplete(s: State, step: Step, t: nat, k: nat)
    requires Enabled(s, step) && t < |s.tasks| && t < |Apply(s, step).tasks|
    ensures Completed(Apply(s, step).tasks[t], k) ==>
              Completed(s.tasks[t], k) || (step.IoCallback? && step.t == t && step.frame == k)
  {
    if step.RunCode? {
      CodeCompletesNothing(Current(s, step.i), step.a, k);
    } else {
      OthersCompleteNothing(s, step, t);
    }
  }

  predicate Completed(t: Task, k: nat) { k < |t.frames| && t.frames[k].io.Some? && t.frames[k].io.value.condition }

  lemma CodeCompletesNothing(t: Task, a: Tasks.Action, k: nat)
    requires Tasks.ByCode(a) && Tasks.Guard(t, a)
    ensures Completed(Tasks.Apply(t, a), k) ==> Completed(t, k)
  {
  }

  lemma OthersCompleteNothing(s: State, step: Step, t: nat)
    requires Enabled(s, step) && !step.RunCode? && t < |s.tasks| && t < |Apply(s, step).tasks|
    ensures !(step.IoCallback? && step.t == t) ==> Apply(s, step).tasks[t].frames == s.tasks[t].frames
    ensures step.IoCallback? && step.t == t ==>
              |Apply(s, step).tasks[t].frames| == |s.tasks[t].frames|
              && forall l :: 0 <= l < |s.tasks[t].frames| && l != step.frame ==>
                   Apply(s, step).tasks[t].frames[l] == s.tasks[t].frames[l]
  {
  }

  // ------------------------------------------------------------------ nobody is kept from acting

  /** The scheduler's thread polls for IO callbacks. */
  predicate Polls(s: State, i: nat) { At(s, i, LoopTop) || At(s, i, OwnedPoll) }

  /**
   * Something that is not the next move of a thread: a send or a resume, a push in flight, the
   * callback of a request on the scheduler that owns it, or an action of the code being executed.
   */
  predicate Asked(s: State, step: Step) {
    match step
    case External(t, a, target) => t < |s.tasks| && (a.Send? || a.Resume?) && target < |s.schedulers|
    case Deliver(i, t, q) => i < |s.schedulers| && t in Pushes(s.schedulers[i], q)
    case IoCallback(i, t, k) =>
      Polls(s, i) && t < |s.tasks| && k < |s.tasks[t].frames| && s.tasks[t].frames[k].io.Some?
      && s.tasks[t].frames[k].io.value.scheduler == i
    case RunCode(i, a) =>
      At(s, i, Code) && HasCurrent(s, i) && Tasks.ByCode(a) && Tasks.Guard(Current(s, i), a)
      && (a.Pin? || a.AwaitIo? ==> a.scheduler == i)
    case _ => false
  }

  /** In every reachable state all of these can happen. */
  lemma AnybodyCanAct(s: State, step: Step)
    requires RuntimeTheorems.Reachable(s) && Asked(s, step)
    ensures Enabled(s, step)
  {
    RuntimeTheorems.ReachableInv(s);
    if step.External? || step.IoCallback? {
      assert TaskOk(s.tasks[step.t], |s.schedulers|);
    }
  }
}
