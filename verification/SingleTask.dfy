/**
 * The scheduler of a fiberized OS thread: it executes one task, and suspending means looping on
 * a flag that the resumer sets.
 */
module SingleTask {
  import opened Options
  import Tasks

  /** The thread is in the task's code, or in the waiting loop of suspend(). */
  datatype State = State(task: Tasks.Task, resumed: bool, looping: bool)

  class SingleTaskScheduler {
    ghost var task: Tasks.Task
    var status: Tasks.Status
    var scheduled: bool
    var resumes: nat
    var resumesExpected: nat
    var resumed: bool
    ghost var looping: bool

    ghost function View(): State
      reads this
    {
      State(task, resumed, looping)
    }

    /** The fields hold the task's record; the counters are 64-bit words. */
    ghost predicate Valid()
      reads this
    {
      task.status == status && task.scheduled == scheduled && resumes == task.resumes % Tasks.WORD
      && (task.expected.Some? ==> resumesExpected == task.expected.value % Tasks.WORD)
    }

    /** context::detail::resume on the thread's task, with SingleTaskScheduler::resume. */
    method Resume()
      requires Valid() && (Tasks.Resumable(task) ==> !status.Starting?)
      modifies this
      ensures Valid() && View() == Resuming(old(View()))
    {
      resumes := (resumes + 1) % Tasks.WORD;
      if (status.Suspended? || status.Starting? || status.Listening?) && !scheduled {
        status := Tasks.Running;
        scheduled := false;
        resumes := (resumes + 1) % Tasks.WORD;
        resumed := true;
      }
      Tasks.WordUp(task.resumes);
      Tasks.WordUp(task.resumes + 1);
      task := Resuming(View()).task;
    }

    /** suspend() up to its waiting loop. */
    method Suspend()
      requires Valid() && status.Running? && !scheduled && task.expected.Some? && !looping
      modifies this
      ensures Valid() && View() == Suspending(old(View()))
      ensures status.Suspended? && looping && !resumed <==> old(resumes == resumesExpected)
      ensures !looping ==> View() == old(View())
    {
      ghost var before := View();
      if resumes == resumesExpected {
        status := Tasks.Suspended;
        resumed := false;
      }
      task := Suspending(before).task;
      looping := Suspending(before).looping;
    }
  }

  /** A resume, from any thread, under the task's lock. */
  function Resuming(s: State): State {
    var t := s.task.(resumes := s.task.resumes + 1);
    if Tasks.Resumable(s.task) then
      State(t.(status := Tasks.Running, scheduled := false, resumes := t.resumes + 1), true, s.looping)
    else s.(task := t)
  }

  function Suspending(s: State): State {
    if Tasks.Stale(s.task) then s
    else State(s.task.(status := Tasks.Suspended), false, true)
  }

  datatype Step =
    | Send(e: Tasks.Event)
    | Resume
    | Code(a: Tasks.Action)
    | Suspend
    | Leave

  /** The task set up by FiberSystem::fiberize. */
  function Initial(resumed: bool): State {
    State(Tasks.NewTask(None).(status := Tasks.Running, runs := 1), resumed, false)
  }

  /** The code of a thread can do what the code of a task can, except taking pins. */
  predicate Ordinary(a: Tasks.Action) {
    a.Work? || a.Dispatch? || a.Process? || a.Stop?
  }

  /** suspend() is called right after process(); Leave is the exit from the waiting loop. */
  predicate Enabled(s: State, step: Step) {
    match step
    case Send(_) => true
    case Resume => true
    case Code(a) => !s.looping && Ordinary(a) && Tasks.Guard(s.task, a)
    case Suspend => !s.looping && s.task.phase.Processed?
    case Leave => s.looping && s.resumed
  }

  function Apply(s: State, step: Step): State
    requires Enabled(s, step)
  {
    match step
    case Send(e) =>
      Resuming(s.(task := s.task.(mailbox := s.task.mailbox + [e], enqueued := s.task.enqueued + [e])))
    case Resume => Resuming(s)
    case Code(a) => s.(task := Tasks.Apply(s.task, a))
    case Suspend => Suspending(s)
    case Leave => s.(looping := false, task := s.task.(phase := Tasks.Busy))
  }

  predicate Legal(s: State, steps: seq<Step>)
    decreases |steps|
  {
    steps == [] || (Enabled(s, steps[0]) && Legal(Apply(s, steps[0]), steps[1..]))
  }

  function After(s: State, steps: seq<Step>): State
    requires Legal(s, steps)
    decreases |steps|
  {
    if steps == [] then s else After(Apply(s, steps[0]), steps[1..])
  }

  ghost predicate Inv(s: State) {
    var t := s.task;
    && !t.scheduled && !t.saved
    && (t.status.Running? || t.status.Suspended?)
    && (t.status.Suspended? <==> s.looping && !s.resumed)
    && (t.status.Suspended? ==>
          t.phase.Processed? && t.expected.Some? && (t.resumes - t.expected.value) % Tasks.WORD == 0)
    && (t.phase.Busy? || t.phase.Processed?)
    && (t.phase.Processed? ==>
          t.expected.Some? && t.expected.value <= t.resumes
          && (t.expected.value == t.resumes ==> t.mailbox == [] || t.stopped))
    && t.dispatched + t.mailbox == t.enqueued
    && (s.looping && s.resumed ==> t.phase.Processed?)
  }

  lemma WordsEqual(a: nat, b: nat)
    requires a <= b && a % Tasks.WORD == b % Tasks.WORD
    ensures (b - a) % Tasks.WORD == 0
  {
    var q, p := b / Tasks.WORD, a / Tasks.WORD;
    assert b == q * Tasks.WORD + b % Tasks.WORD && a == p * Tasks.WORD + a % Tasks.WORD;
    assert b - a == (q - p) * Tasks.WORD;
  }

  lemma Keeps(s: State, step: Step)
    requires Inv(s) && Enabled(s, step)
    ensures Inv(Apply(s, step))
  {
    match step
    case Send(e) =>
      assert s.task.dispatched + (s.task.mailbox + [e]) == (s.task.dispatched + s.task.mailbox) + [e];
    case Resume =>
    case Code(a) => Tasks.KeepsOrder(s.task, a);
    case Suspend =>
      if !Tasks.Stale(s.task) {
        WordsEqual(s.task.expected.value, s.task.resumes);
      }
    case Leave =>
  }

  lemma {:induction false} RunKeeps(s: State, steps: seq<Step>)
    requires Inv(s) && Legal(s, steps)
    ensures Inv(After(s, steps))
    decreases |steps|
  {
    if steps != [] {
      Keeps(s, steps[0]);
      RunKeeps(Apply(s, steps[0]), steps[1..]);
    }
  }

  /**
   * In every run a fiberized thread that loops without having been resumed has seen every resume
   * and every event (or 2^64 resumes came before it suspended), and its task is Suspended exactly
   * then; with resume's assertion that the task is not Starting and suspend's that it is Running.
   */
  lemma NoLostWakeup(resumed: bool, steps: seq<Step>)
    requires Legal(Initial(resumed), steps)
    ensures var s := After(Initial(resumed), steps);
            (s.task.status.Suspended? <==> s.looping && !s.resumed)
            && (s.looping && !s.resumed ==>
                  s.task.expected.Some? && s.task.resumes % Tasks.WORD == s.task.expected.value % Tasks.WORD
                  && (s.task.expected.value == s.task.resumes || s.task.resumes >= s.task.expected.value + Tasks.WORD)
                  && (s.task.expected.value == s.task.resumes ==> s.task.mailbox == [] || s.task.stopped))
            && (!s.looping ==> s.task.status.Running?) && !s.task.scheduled
            && (Enabled(s, Suspend) ==> s.task.expected.Some?)
            && s.task.dispatched <= s.task.enqueued
  {
    RunKeeps(Initial(resumed), steps);
    var t := After(Initial(resumed), steps).task;
    if t.expected.Some? {
      Tasks.WordsDiffer(t.resumes, t.expected.value);
    }
  }

  /**
   * suspend() suspends: in every run it leaves the task Suspended and the thread in its waiting
   * loop, with the flag down, if and only if the words are equal, and otherwise changes nothing.
   */
  lemma SuspendsExactlyWhen(resumed: bool, steps: seq<Step>)
    requires Legal(Initial(resumed), steps) && Enabled(After(Initial(resumed), steps), Suspend)
    ensures var s := After(Initial(resumed), steps);
            var s' := Apply(s, Suspend);
            s.task.expected.Some?
            && (s'.looping && s'.task.status.Suspended? && !s'.resumed
                <==> s.task.resumes % Tasks.WORD == s.task.expected.value % Tasks.WORD)
            && (s' == s || s' == State(s.task.(status := Tasks.Suspended), false, true))
            && (!s'.looping ==> s' == s)
  {
    RunKeeps(Initial(resumed), steps);
  }

  /** In every run the code of a thread outside its waiting loop can take the first event of its mailbox. */
  lemma CodeGoesOn(resumed: bool, steps: seq<Step>)
    requires Legal(Initial(resumed), steps) && !After(Initial(resumed), steps).looping
    ensures var s := After(Initial(resumed), steps);
            (Enabled(s, Code(Tasks.Dispatch)) <==> s.task.mailbox != [])
            && (Enabled(s, Code(Tasks.Dispatch)) ==>
                  [s.task.mailbox[0]] + Apply(s, Code(Tasks.Dispatch)).task.mailbox == s.task.mailbox)
  {
    RunKeeps(Initial(resumed), steps);
  }

  /** process() on an empty mailbox and suspend(), with nobody resuming in between, suspend the thread. */
  lemma SuspendsWhenIdle(resumed: bool, steps: seq<Step>)
    requires Legal(Initial(resumed), steps)
    requires var s := After(Initial(resumed), steps); !s.looping && (s.task.mailbox == [] || s.task.stopped)
    ensures var s := After(Initial(resumed), steps);
            Enabled(s, Code(Tasks.Process)) && Enabled(Apply(s, Code(Tasks.Process)), Suspend)
            && Apply(Apply(s, Code(Tasks.Process)), Suspend).looping
            && Apply(Apply(s, Code(Tasks.Process)), Suspend).task.status.Suspended?
  {
    RunKeeps(Initial(resumed), steps);
  }

  /**
   * Whoever sends to a thread that loops, or resumes it, lets it go on: it can leave its loop
   * exactly if it was resumed, and its task is then Running.
   */
  lemma ResumesEndTheLoop(resumed: bool, steps: seq<Step>, step: Step)
    requires Legal(Initial(resumed), steps) && After(Initial(resumed), steps).looping
    ensures var s := After(Initial(resumed), steps);
            (Enabled(s, Leave) <==> s.resumed)
            && (s.resumed ==> !Apply(s, Leave).looping && Apply(s, Leave).task.status.Running?)
    ensures step.Send? || step.Resume? ==>
              Enabled(After(Initial(resumed), steps), step)
              && Enabled(Apply(After(Initial(resumed), steps), step), Leave)
  {
    RunKeeps(Initial(resumed), steps);
  }

  // ------------------------------------------------------------------ events

  /** The events that a run sends to the thread, in order. */
  function Sent(steps: seq<Step>): seq<Tasks.Event> {
    if steps == [] then []
    else if steps[0].Send? then [steps[0].e] + Sent(steps[1..])
    else Sent(steps[1..])
  }

  /** How many events its code takes from the mailbox. */
  function Taken(steps: seq<Step>): nat {
    if steps == [] then 0 else (if steps[0] == Code(Tasks.Dispatch) then 1 else 0) + Taken(steps[1..])
  }

  lemma {:induction false} RunHistory(s: State, steps: seq<Step>)
    requires Legal(s, steps)
    ensures After(s, steps).task.enqueued == s.task.enqueued + Sent(steps)
    ensures |After(s, steps).task.dispatched| == |s.task.dispatched| + Taken(steps)
    decreases |steps|
  {
    if steps != [] {
      RunHistory(Apply(s, steps[0]), steps[1..]);
    }
  }

  /** A thread dispatches the events sent to it in the order of the sends. */
  lemma EventsAreThoseSent(resumed: bool, steps: seq<Step>)
    requires Legal(Initial(resumed), steps)
    ensures var t := After(Initial(resumed), steps).task;
            Taken(steps) <= |Sent(steps)| && t.dispatched == Sent(steps)[..Taken(steps)]
            && t.mailbox == Sent(steps)[Taken(steps)..]
  {
    RunKeeps(Initial(resumed), steps);
    RunHistory(Initial(resumed), steps);
    var t := After(Initial(resumed), steps).task;
    assert Initial(resumed).task.enqueued + Sent(steps) == Sent(steps);
    assert t.dispatched + t.mailbox == t.enqueued;
  }
}
