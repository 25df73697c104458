/** What holds in every reachable state of the runtime, for any number of schedulers and tasks. */
module RuntimeTheorems {
  import opened Options
  import opened Runtime
  import RuntimeProofs
  import Tasks

  // ------------------------------------------------------------------ reachability

  ghost predicate Reachable(s: State) {
    exists n: nat, steps: seq<Step> :: Legal(Initial(n), steps) && s == After(Initial(n), steps)
  }

  lemma {:induction false} FreshClaims(cs: seq<Scheduler>, t: nat)
    requires forall i :: 0 <= i < |cs| ==> Claim(cs[i], t) == 0
    ensures Claims(cs, t) == 0
  {
    if cs != [] {
      FreshClaims(cs[1..], t);
    }
  }

  /** Schedulers whose unowned contexts are base, base + 1, ... and that hold nothing else. */
  lemma {:induction false} FreshContexts(cs: seq<Scheduler>, base: nat, k: nat)
    requires forall i :: 0 <= i < |cs| ==> cs[i].unowned == Some(base + i) && cs[i].stash == []
    ensures HeldBySchedulers(cs, k) == if base <= k < base + |cs| then 1 else 0
  {
    if cs != [] {
      assert cs[0].unowned == Some(base + 0);
      FreshContexts(cs[1..], base + 1, k);
    }
  }

  lemma InitialInv(n: nat)
    ensures Inv(Initial(n))
  {
    var s := Initial(n);
    forall t: nat
      ensures Claims(s.schedulers, t) == 0
    {
      FreshClaims(s.schedulers, t);
    }
    forall k: nat
      ensures Holders(s, k) == if k < n then 1 else 0
    {
      FreshContexts(s.schedulers, 0, k);
    }
  }

  lemma {:induction false} RunKeeps(s: State, steps: seq<Step>)
    requires Inv(s) && Legal(s, steps)
    ensures Inv(After(s, steps))
    decreases |steps|
  {
    if steps != [] {
      RuntimeProofs.Keeps(s, steps[0]);
      RunKeeps(Apply(s, steps[0]), steps[1..]);
    }
  }

  lemma ReachableInv(s: State)
    requires Reachable(s)
    ensures Inv(s)
  {
    var n: nat, steps: seq<Step> :| Legal(Initial(n), steps) && s == After(Initial(n), steps);
    InitialInv(n);
    RunKeeps(Initial(n), steps);
  }

  // ------------------------------------------------------------------ no double run

  /** The thread of scheduler i is executing the code of task t, or suspending it. */
  predicate Executes(s: State, i: nat, t: nat) {
    i < |s.schedulers|
    && (var c := s.schedulers[i];
        ((c.pc.Code? || c.pc.OwnedPoll?) && c.current == Some(t)) || c.suspending == Some(t))
  }

  /** Task t is on its way to a thread: pushed, queued, or taken and not yet running. */
  predicate OnItsWay(s: State, i: nat, t: nat) {
    i < |s.schedulers|
    && (var c := s.schedulers[i];
        t in c.softPushes || t in c.hardPushes || t in c.soft || t in c.hard
        || (c.current == Some(t) && !c.pc.Code? && !c.pc.OwnedPoll?))
  }

  /** Some thread executes task t. */
  ghost predicate Executed(s: State, t: nat) { exists i :: Executes(s, i, t) }

  /** Task t is on its way to some thread. */
  ghost predicate Coming(s: State, t: nat) { exists i :: OnItsWay(s, i, t) }

  /** One thread executes task t, and the task is then on its way to none. */
  ghost predicate Exclusive(s: State, t: nat) {
    && (forall i, j :: Executes(s, i, t) && Executes(s, j, t) ==> i == j)
    && !(Executed(s, t) && Coming(s, t))
  }

  lemma TwoClaims(s: State, i: nat, j: nat, t: nat)
    requires Inv(s) && t < |s.tasks| && Executes(s, i, t) && Executes(s, j, t)
    ensures i == j
  {
    ClaimKind(s, i, t);
    ClaimKind(s, j, t);
    RuntimeProofs.ClaimsAtLeast(s.schedulers, i, t);
    assert Claims(s.schedulers, t) == Weight(s.tasks[t]);
  }

  lemma ClaimFound(s: State, t: nat)
    requires Inv(s) && t < |s.tasks|
    ensures s.tasks[t].status.Running? ==> Executed(s, t)
    ensures s.tasks[t].scheduled ==> Coming(s, t)
  {
    assert Claims(s.schedulers, t) == Weight(s.tasks[t]);
    if Weight(s.tasks[t]) == 1 {
      var i := RuntimeProofs.ClaimAt(s.schedulers, t);
      ClaimKind(s, i, t);
    }
  }

  lemma ClaimImplies(s: State, t: nat)
    requires Inv(s) && t < |s.tasks|
    ensures Executed(s, t) ==> s.tasks[t].status.Running?
    ensures Coming(s, t) ==> s.tasks[t].scheduled
  {
    if i :| Executes(s, i, t) {
      ClaimKind(s, i, t);
    }
    if i :| OnItsWay(s, i, t) {
      ClaimKind(s, i, t);
    }
  }

  lemma AtMostOneClaim(s: State, t: nat)
    requires Inv(s) && t < |s.tasks|
    ensures Claims(s.schedulers, t) <= 1
    ensures s.tasks[t].runs <= 1
  {
    assert Claims(s.schedulers, t) == Weight(s.tasks[t]) && TaskOk(s.tasks[t], |s.schedulers|);
  }

  lemma ExecutedByOne(s: State, t: nat)
    requires Inv(s) && t < |s.tasks|
    ensures Exclusive(s, t)
  {
    forall i, j | Executes(s, i, t) && Executes(s, j, t)
      ensures i == j
    {
      TwoClaims(s, i, j, t);
    }
    ClaimImplies(s, t);
    assert TaskOk(s.tasks[t], |s.schedulers|);
  }

  /** At most one claim on a task exists, and which one is told by its status and scheduled flag. */
  lemma NoDoubleRun(s: State, t: nat)
    requires Reachable(s) && t < |s.tasks|
    ensures Claims(s.schedulers, t) <= 1
    ensures Exclusive(s, t)
    ensures s.tasks[t].status.Running? <==> Executed(s, t)
    ensures s.tasks[t].scheduled <==> Coming(s, t)
    ensures s.tasks[t].runs <= 1
  {
    ReachableInv(s);
    AtMostOneClaim(s, t);
    ClaimFound(s, t);
    ClaimImplies(s, t);
    ExecutedByOne(s, t);
  }

  /** What a claim of scheduler i on task t is. */
  lemma ClaimKind(s: State, i: nat, t: nat)
    requires Inv(s) && i < |s.schedulers| && t < |s.tasks|
    ensures Claim(s.schedulers[i], t) > 0 ==> Executes(s, i, t) || OnItsWay(s, i, t)
    ensures Executes(s, i, t) ==> s.tasks[t].status.Running? && !s.tasks[t].scheduled && Claim(s.schedulers[i], t) > 0
    ensures OnItsWay(s, i, t) ==> s.tasks[t].scheduled && !s.tasks[t].status.Running? && Claim(s.schedulers[i], t) > 0
  {
    var c := s.schedulers[i];
    assert SchedulerOk(c, i, s.tasks) && TaskOk(s.tasks[t], |s.schedulers|);
    if Claim(c, t) > 0 {
      RuntimeProofs.ClaimMeans(c, t);
    }
    assert t in c.soft ==> multiset(c.soft)[t] > 0;
    assert t in c.hard ==> multiset(c.hard)[t] > 0;
  }

  /** A thread jumps only to a saved computation, and runs a task's runnable only the first time. */
  lemma JumpsAreSaved(s: State, step: Step)
    requires Reachable(s) && Enabled(s, step)
    ensures step.JumpFromLoop? || step.JumpToTask? ==> Current(s, step.i).saved
    ensures step.StartTask? && Current(s, step.i).status.Starting? ==> Current(s, step.i).runs == 0
    ensures step.StartTask? && Current(s, step.i).status.Listening? ==> Current(s, step.i).runs == 1
  {
    ReachableInv(s);
    if step.JumpFromLoop? || step.JumpToTask? || step.StartTask? {
      assert TaskOk(Current(s, step.i), |s.schedulers|);
    }
  }

  // ------------------------------------------------------------------ no lost wakeup

  /**
   * A task that is not on its way to a thread has seen every resume and, unless it was stopped,
   * every event; if it waits for an IO request, that request is not complete.  The exceptions
   * are exact: its counters agree as words although 2^64 resumes or more came since it last
   * looked, or it only yielded and its word is the marker.
   */
  lemma NoLostWakeup(s: State, t: nat)
    requires Reachable(s) && t < |s.tasks| && !Coming(s, t)
    requires s.tasks[t].status.Suspended? || s.tasks[t].status.Listening?
    ensures s.tasks[t].expected.Some?
    ensures s.tasks[t].resumes % Tasks.WORD == s.tasks[t].expected.value % Tasks.WORD
    ensures s.tasks[t].phase.Yielded? ==> s.tasks[t].resumes % Tasks.WORD == Tasks.NEVER
    ensures !s.tasks[t].phase.Yielded? ==>
              SeenAll(s.tasks[t]) || s.tasks[t].resumes >= s.tasks[t].expected.value + Tasks.WORD
  {
    NoDoubleRun(s, t);
    ReachableInv(s);
    assert TaskOk(s.tasks[t], |s.schedulers|);
    Tasks.SleepersHaveSeenAll(s.tasks[t]);
  }

  /** The task has seen every resume and event, and does not wait for a completed request. */
  predicate SeenAll(t: Task) {
    t.expected == Some(t.resumes) && (t.stopped || t.mailbox == [])
    && (t.phase.Awaiting? ==> Tasks.Top(t).Some? && !Tasks.Top(t).value.condition)
  }

  // ------------------------------------------------------------------ a lost yield

  /** Somebody sends to the task or resumes it, or a request of its completes. */
  predicate Wakes(step: Step, t: nat) { (step.External? || step.IoCallback?) && step.t == t }

  /** No thread has the task in hand. */
  predicate Untouched(s: State, t: nat) {
    forall i :: 0 <= i < |s.schedulers| ==>
      s.schedulers[i].current != Some(t) && s.schedulers[i].suspending != Some(t)
  }

  lemma SleepersAreUntouched(s: State, t: nat)
    requires SchedulersOk(s) && t < |s.tasks| && Tasks.Asleep(s.tasks[t])
    ensures Untouched(s, t)
  {
    forall i | 0 <= i < |s.schedulers|
      ensures s.schedulers[i].current != Some(t) && s.schedulers[i].suspending != Some(t)
    {
      assert SchedulerOk(s.schedulers[i], i, s.tasks);
    }
  }

  lemma OthersLeaveIt(s: State, step: Step, t: nat)
    requires Enabled(s, step) && t < |s.tasks| && Untouched(s, t) && !Wakes(step, t)
    ensures t < |Apply(s, step).tasks| && Apply(s, step).tasks[t] == s.tasks[t]
  {
  }

  lemma WakingSchedules(s: State, step: Step, t: nat)
    requires Enabled(s, step) && t < |s.tasks| && Tasks.Asleep(s.tasks[t]) && Wakes(step, t)
    ensures t < |Apply(s, step).tasks| && Apply(s, step).tasks[t].scheduled
  {
  }

  /** A sleeping task stays as it is until somebody wakes it, and whoever does schedules it. */
  lemma {:induction false} SleepsUntilWoken(s: State, steps: seq<Step>, t: nat)
    requires Inv(s) && Legal(s, steps) && t < |s.tasks| && Tasks.Asleep(s.tasks[t])
    requires forall i :: 0 <= i < |steps| ==> !Wakes(steps[i], t)
    ensures t < |After(s, steps).tasks| && After(s, steps).tasks[t] == s.tasks[t]
    ensures forall step :: Wakes(step, t) && Enabled(After(s, steps), step) ==>
              t < |Apply(After(s, steps), step).tasks| && Apply(After(s, steps), step).tasks[t].scheduled
    decreases |steps|
  {
    if steps == [] {
      forall step | Wakes(step, t) && Enabled(s, step)
        ensures t < |Apply(s, step).tasks| && Apply(s, step).tasks[t].scheduled
      {
        WakingSchedules(s, step, t);
      }
    } else {
      SleepersAreUntouched(s, t);
      OthersLeaveIt(s, steps[0], t);
      RuntimeProofs.Keeps(s, steps[0]);
      SleepsUntilWoken(Apply(s, steps[0]), steps[1..], t);
    }
  }

  lemma Go(s: State, step: Step) returns (s': State)
    requires Reachable(s) && Enabled(s, step)
    ensures Reachable(s') && s' == Apply(s, step)
  {
    var n: nat, steps: seq<Step> :| Legal(Initial(n), steps) && s == After(Initial(n), steps);
    RunsCompose(Initial(n), steps, [step]);
    s' := Apply(s, step);
  }

  /** One scheduler with one task, after `contexts` stack contexts. */
  function Alone(t: Task, c: Scheduler, contexts: nat): State { State([t], [c], contexts, multiset{}) }

  /** The task has been started and resumed n times in all. */
  function LoneTask(n: nat): Task {
    Tasks.NewTask(None).(status := Tasks.Running, resumes := n, stack := Some(0), runs := 1)
  }

  /** The thread executes the task on the context it began with. */
  function LoneScheduler(): Scheduler { NewScheduler(0).(pc := Code, current := Some(0), unowned := None) }

  lemma Created() returns (s: State)
    ensures Reachable(s) && s == Alone(Tasks.NewTask(None), NewScheduler(0), 1)
  {
    assert Legal(Initial(1), []) && After(Initial(1), []) == Initial(1);
    assert Initial(1).schedulers == [NewScheduler(0)];
    s := Go(Initial(1), Create(None));
  }

  lemma IsPushed(s: State) returns (s': State)
    requires Reachable(s) && s == Alone(Tasks.NewTask(None), NewScheduler(0), 1)
    ensures Reachable(s')
    ensures s' == Alone(Tasks.Resumed(Tasks.NewTask(None)), NewScheduler(0).(softPushes := multiset{0}), 1)
  {
    s' := Go(s, External(0, Tasks.Resume, 0));
    assert s'.schedulers[0].softPushes == multiset{0};
    assert s'.schedulers == [NewScheduler(0).(softPushes := multiset{0})];
    assert s'.tasks == [Tasks.Resumed(Tasks.NewTask(None))];
  }

  lemma Arrives(s: State, t: Task) returns (s': State)
    requires Reachable(s) && s == Alone(t, NewScheduler(0).(softPushes := multiset{0}), 1)
    ensures Reachable(s') && s' == Alone(t, NewScheduler(0).(soft := [0]), 1)
  {
    s' := Go(s, Deliver(0, 0, Soft));
    assert s'.schedulers[0].softPushes == multiset{} && s'.schedulers[0].soft == [0];
    assert s'.schedulers == [NewScheduler(0).(soft := [0])];
  }

  lemma IsTaken(s: State, t: Task) returns (s': State)
    requires Reachable(s) && s == Alone(t, NewScheduler(0).(soft := [0]), 1)
    ensures Reachable(s') && s' == Alone(t, NewScheduler(0).(pc := LoopPick, current := Some(0)), 1)
  {
    var s1 := Go(s, Finish(0));
    assert s1.schedulers == [NewScheduler(0).(pc := LoopPick, soft := [0])];
    s' := Go(s1, Dequeue(0, Soft));
    assert s'.schedulers[0].soft == [];
    assert s'.schedulers == [NewScheduler(0).(pc := LoopPick, current := Some(0))];
  }

  lemma Starts(s: State) returns (s': State)
    requires Reachable(s)
    requires s == Alone(Tasks.Resumed(Tasks.NewTask(None)), NewScheduler(0).(pc := LoopPick, current := Some(0)), 1)
    ensures Reachable(s') && s' == Alone(LoneTask(2), LoneScheduler(), 1)
  {
    s' := Go(s, StartTask(0));
    assert s'.schedulers == [LoneScheduler()] && s'.tasks == [LoneTask(2)];
  }

  lemma ResumedOnce(s: State, n: nat) returns (s': State)
    requires Reachable(s) && s == Alone(LoneTask(n), LoneScheduler(), 1)
    ensures Reachable(s') && s' == Alone(LoneTask(n + 1), LoneScheduler(), 1)
  {
    s' := Go(s, External(0, Tasks.Resume, 0));
    assert s'.schedulers == [LoneScheduler()] && s'.tasks == [LoneTask(n + 1)];
  }

  /** A running task can be resumed any number of times. */
  lemma {:induction false} ResumedOften(n: nat) returns (s: State)
    requires n >= 2
    ensures Reachable(s) && s == Alone(LoneTask(n), LoneScheduler(), 1)
  {
    if n == 2 {
      s := Created();
      s := IsPushed(s);
      s := Arrives(s, Tasks.Resumed(Tasks.NewTask(None)));
      s := IsTaken(s, Tasks.Resumed(Tasks.NewTask(None)));
      s := Starts(s);
    } else {
      s := ResumedOften(n - 1);
      s := ResumedOnce(s, n - 1);
    }
  }

  lemma Yields(s: State, n: nat) returns (s': State)
    requires Reachable(s) && s == Alone(LoneTask(n), LoneScheduler(), 1)
    ensures Reachable(s')
    ensures s' == Alone(Tasks.Apply(LoneTask(n), Tasks.Yield),
                        LoneScheduler().(pc := OwnedPick, current := None, suspending := Some(0)), 1)
  {
    var s1 := Go(s, RunCode(0, Tasks.Yield));
    assert s1.tasks == [Tasks.Apply(LoneTask(n), Tasks.Yield)] && s1.schedulers == [LoneScheduler()];
    s' := LooksAround(s1, s1.tasks[0]);
  }

  lemma LooksAround(s: State, t: Task) returns (s': State)
    requires Reachable(s) && s == Alone(t, LoneScheduler(), 1) && Tasks.Settled(t.phase)
    ensures Reachable(s')
    ensures s' == Alone(t, LoneScheduler().(pc := OwnedPick, current := None, suspending := Some(0)), 1)
  {
    var s1 := Go(s, Suspend(0));
    assert s1.schedulers == [LoneScheduler().(pc := OwnedPoll)];
    s' := Go(s1, EnterOwned(0));
    assert s'.schedulers == [LoneScheduler().(pc := OwnedPick, current := None, suspending := Some(0))];
  }

  lemma FallsAsleep(s: State, t: Task) returns (s': State)
    requires Reachable(s) && !Tasks.Stale(t)
    requires s == Alone(t, LoneScheduler().(pc := OwnedPick, current := None, suspending := Some(0)), 1)
    ensures Reachable(s') && s'.tasks == [t.(saved := true, status := Tasks.Suspended, scheduled := false)]
  {
    var s1 := Go(s, JumpToLoop(0));
    assert s1.tasks == [t.(saved := true)];
    s' := Go(s1, Finish(0));
  }

  /**
   * A task that has been resumed 2^64 - 1 times and then yields is left asleep, with nobody about
   * to run it, until somebody sends to it or resumes it: its counter equals the marker.
   */
  lemma YieldCanBeLost(n: nat) returns (s: State)
    requires n == Tasks.NEVER
    ensures Reachable(s) && |s.tasks| == 1 && s.tasks[0].resumes == n && s.tasks[0].phase.Yielded?
    ensures Tasks.Asleep(s.tasks[0]) && !Coming(s, 0)
    ensures forall steps ::
              Legal(s, steps) && (forall i :: 0 <= i < |steps| ==> !Wakes(steps[i], 0)) ==>
                |After(s, steps).tasks| > 0 && After(s, steps).tasks[0] == s.tasks[0]
  {
    s := ResumedOften(n);
    s := Yields(s, n);
    s := FallsAsleep(s, Tasks.Apply(LoneTask(n), Tasks.Yield));
    NoDoubleRun(s, 0);
    ReachableInv(s);
    forall steps | Legal(s, steps) && forall i :: 0 <= i < |steps| ==> !Wakes(steps[i], 0)
      ensures |After(s, steps).tasks| > 0 && After(s, steps).tasks[0] == s.tasks[0]
    {
      SleepsUntilWoken(s, steps, 0);
    }
  }

  /** Every event sent to a task was dispatched, in order of arrival, or is still in its mailbox. */
  lemma EventsInOrder(s: State, t: nat)
    requires Reachable(s) && t < |s.tasks|
    ensures s.tasks[t].dispatched <= s.tasks[t].enqueued
    ensures s.tasks[t].mailbox == s.tasks[t].enqueued[|s.tasks[t].dispatched|..]
  {
    ReachableInv(s);
    assert TaskOk(s.tasks[t], |s.schedulers|);
  }

  // ------------------------------------------------------------------ stacks

  /** The stack context the thread of scheduler i is executing on. */
  function ExecutingOn(s: State, i: nat): Option<nat>
    requires i < |s.schedulers|
  {
    var c := s.schedulers[i];
    if c.pc.LoopTop? || c.pc.LoopPick? then c.unowned
    else if c.pc.OwnedPick? then (if HasSuspending(s, i) then s.tasks[c.suspending.value].stack else None)
    else if HasCurrent(s, i) then Current(s, i).stack
    else None
  }

  /** Stack contexts are conserved: nothing leaks, nothing is shared, stashes stay small. */
  lemma ContextsConserved(s: State, k: nat)
    requires Reachable(s)
    ensures Holders(s, k) == if k < s.contexts then 1 else 0
    ensures forall i :: 0 <= i < |s.schedulers| ==> |s.schedulers[i].stash| <= STASH_SIZE
    ensures forall t :: 0 <= t < |s.tasks| ==>
              (s.tasks[t].stack.Some? <==> s.tasks[t].status.Running? || s.tasks[t].status.Suspended?)
  {
    ReachableInv(s);
    forall t | 0 <= t < |s.tasks|
      ensures TaskOk(s.tasks[t], |s.schedulers|)
    {
    }
    forall i | 0 <= i < |s.schedulers|
      ensures SchedulerOk(s.schedulers[i], i, s.tasks)
    {
    }
  }

  lemma {:induction false} HeldByTaskAt(ts: seq<Task>, t: nat, k: nat)
    requires t < |ts|
    ensures HeldByTasks(ts, k) >= One(ts[t].stack, k)
    ensures forall u :: 0 <= u < |ts| && u != t ==> HeldByTasks(ts, k) >= One(ts[t].stack, k) + One(ts[u].stack, k)
  {
    if t != 0 {
      HeldByTaskAt(ts[1..], t - 1, k);
    }
    forall u | 0 <= u < |ts| && u != t
      ensures HeldByTasks(ts, k) >= One(ts[t].stack, k) + One(ts[u].stack, k)
    {
      if t == 0 {
        HeldByTaskAt(ts[1..], u - 1, k);
      } else if u != 0 {
        assert ts[1..][u - 1] == ts[u];
      }
    }
  }

  lemma {:induction false} HeldBySchedulerAt(cs: seq<Scheduler>, i: nat, k: nat)
    requires i < |cs|
    ensures HeldBySchedulers(cs, k) >= Held(cs[i], k)
    ensures forall j :: 0 <= j < |cs| && j != i ==> HeldBySchedulers(cs, k) >= Held(cs[i], k) + Held(cs[j], k)
  {
    if i != 0 {
      HeldBySchedulerAt(cs[1..], i - 1, k);
    }
    forall j | 0 <= j < |cs| && j != i
      ensures HeldBySchedulers(cs, k) >= Held(cs[i], k) + Held(cs[j], k)
    {
      if i == 0 {
        HeldBySchedulerAt(cs[1..], j - 1, k);
      } else if j != 0 {
        assert cs[1..][j - 1] == cs[j];
      }
    }
  }

  /** The holder of the stack a thread executes on: its unowned slot or one task. */
  lemma StackHolder(s: State, i: nat) returns (task: Option<nat>)
    requires Inv(s) && i < |s.schedulers|
    ensures ExecutingOn(s, i).Some?
    ensures task.None? ==> s.schedulers[i].unowned == ExecutingOn(s, i)
    ensures task.Some? ==> task.value < |s.tasks| && s.tasks[task.value].stack == ExecutingOn(s, i)
                           && Claim(s.schedulers[i], task.value) > 0
  {
    var c := s.schedulers[i];
    assert SchedulerOk(c, i, s.tasks);
    if c.pc.LoopTop? || c.pc.LoopPick? {
      task := None;
    } else {
      task := if c.pc.OwnedPick? then c.suspending else c.current;
      assert TaskOk(s.tasks[task.value], |s.schedulers|);
    }
  }

  lemma OneClaimant(s: State, i: nat, j: nat, t: nat)
    requires Inv(s) && i < |s.schedulers| && j < |s.schedulers| && i != j && t < |s.tasks|
    requires Claim(s.schedulers[i], t) > 0
    ensures Claim(s.schedulers[j], t) == 0
  {
    RuntimeProofs.ClaimsAtLeast(s.schedulers, i, t);
    assert Claims(s.schedulers, t) == Weight(s.tasks[t]);
  }

  /** Threads execute on different stacks, none of which is stashed or deallocated. */
  lemma StacksAreSeparate(s: State, i: nat, j: nat)
    requires Reachable(s) && i < |s.schedulers| && j < |s.schedulers|
    ensures ExecutingOn(s, i).Some?
    ensures i != j ==> ExecutingOn(s, i) != ExecutingOn(s, j)
    ensures ExecutingOn(s, i).value !in s.schedulers[j].stash && ExecutingOn(s, i).value !in s.freed
  {
    ReachableInv(s);
    var a := StackHolder(s, i);
    var b := StackHolder(s, j);
    var k := ExecutingOn(s, i).value;
    assert Holders(s, k) == if k < s.contexts then 1 else 0;
    if i != j && a.Some? {
      OneClaimant(s, i, j, a.value);
    }
    HeldOnce(s, k, i, a, j, b);
  }

  /** A context that scheduler i or task a holds is held by nobody else. */
  lemma HeldOnce(s: State, k: nat, i: nat, a: Option<nat>, j: nat, b: Option<nat>)
    requires Holders(s, k) <= 1 && i < |s.schedulers| && j < |s.schedulers|
    requires a.Some? ==> a.value < |s.tasks| && s.tasks[a.value].stack == Some(k)
    requires a.None? ==> s.schedulers[i].unowned == Some(k)
    requires b.Some? ==> b.value < |s.tasks|
    ensures k !in s.schedulers[j].stash && k !in s.freed
    ensures i != j && a != b && b.Some? ==> s.tasks[b.value].stack != Some(k)
    ensures i != j && b.None? ==> s.schedulers[j].unowned != Some(k)
  {
    HeldBySchedulerAt(s.schedulers, i, k);
    HeldBySchedulerAt(s.schedulers, j, k);
    assert k in s.schedulers[j].stash ==> multiset(s.schedulers[j].stash)[k] > 0;
    if a.Some? {
      HeldByTaskAt(s.tasks, a.value, k);
    }
    if b.Some? {
      HeldByTaskAt(s.tasks, b.value, k);
    }
  }

  // ------------------------------------------------------------------ assertions

  /** The queues hold what their names say, still to be started or resumed. */
  ghost predicate QueueAssertions(s: State, i: nat)
    requires i < |s.schedulers|
  {
    var c := s.schedulers[i];
    && (forall t :: t in c.soft || t in c.softPushes ==>
          t < |s.tasks| && s.tasks[t].scheduled && (s.tasks[t].status.Starting? || s.tasks[t].status.Listening?))
    && (forall t :: t in c.hard || t in c.hardPushes ==>
          t < |s.tasks| && s.tasks[t].scheduled && s.tasks[t].status.Suspended?)
  }

  /** finishSuspending: the task is still Running and its resumesExpected has been written. */
  ghost predicate SuspendAssertions(s: State, i: nat)
    requires i < |s.schedulers|
  {
    s.schedulers[i].suspending.Some? ==>
      HasSuspending(s, i)
      && (var t := s.tasks[s.schedulers[i].suspending.value]; t.status.Running? && !t.scheduled && t.expected.Some?)
  }

  /** The assertions of ownedLoop and unownedLoop about the current task at each point of the thread. */
  ghost predicate LoopAssertions(s: State, i: nat)
    requires i < |s.schedulers|
  {
    var c := s.schedulers[i];
    match c.pc
    case LoopTop =>
      c.unowned.Some?
      && (c.current.Some? ==>
            HasCurrent(s, i) && (Current(s, i).status.Starting? || Current(s, i).status.Listening?))
    case LoopPick => c.unowned.Some? && (c.current.Some? ==> HasCurrent(s, i) && Runnable(Current(s, i)))
    case Code =>
      HasCurrent(s, i) && Current(s, i).status.Running? && !Current(s, i).scheduled && c.unowned.None?
      && (Tasks.Guard(Current(s, i), Tasks.Return) && !Current(s, i).stopped ==> Current(s, i).expected.Some?)
    case OwnedPoll => HasCurrent(s, i) && Current(s, i).status.Running? && c.unowned.None?
    case OwnedPick =>
      c.suspending.Some? && c.unowned.None? && (c.current.Some? ==> HasCurrent(s, i) && Runnable(Current(s, i)))
    case Arrived => HasCurrent(s, i) && Current(s, i).status.Suspended? && !(c.unowned.Some? && c.suspending.Some?)
    case Stashing => HasCurrent(s, i) && Current(s, i).status.Suspended? && c.suspending.None?
    case Ready => HasCurrent(s, i) && Current(s, i).status.Suspended? && Current(s, i).scheduled
  }

  /** The statuses a dequeued task can have; the other branches are __builtin_unreachable. */
  predicate Runnable(t: Task) {
    t.status.Starting? || t.status.Listening? || t.status.Suspended?
  }

  lemma SuspendAssertionsHold(s: State, i: nat)
    requires Inv(s) && i < |s.schedulers|
    ensures SuspendAssertions(s, i)
  {
    if s.schedulers[i].suspending.Some? {
      assert SchedulerOk(s.schedulers[i], i, s.tasks);
      assert TaskOk(s.tasks[s.schedulers[i].suspending.value], |s.schedulers|);
    }
  }

  lemma LoopAssertionsHold(s: State, i: nat)
    requires i < |s.schedulers| && ThreadOk(s.schedulers[i], i, s.tasks)
    requires HasCurrent(s, i) ==> Tasks.Inv(Current(s, i))
    ensures LoopAssertions(s, i)
  {
  }

  /** Every assertion of the scheduler holds, and none of its unreachable branches is reached. */
  lemma AssertionsHold(s: State, i: nat)
    requires Reachable(s) && i < |s.schedulers|
    ensures QueueAssertions(s, i) && SuspendAssertions(s, i) && LoopAssertions(s, i)
  {
    ReachableInv(s);
    SuspendAssertionsHold(s, i);
    assert SchedulerOk(s.schedulers[i], i, s.tasks);
    assert HasCurrent(s, i) ==> TaskOk(Current(s, i), |s.schedulers|);
    LoopAssertionsHold(s, i);
  }

  /** The next step of the thread of scheduler i, whatever the state; no branch is unreachable by contract. */
  function NextStep(s: State, i: nat): Step
    requires i < |s.schedulers|
  {
    var c := s.schedulers[i];
    match c.pc
    case LoopTop => Finish(i)
    case LoopPick =>
      if !HasCurrent(s, i) then Idle(i)
      else if Current(s, i).status.Suspended? then JumpFromLoop(i) else StartTask(i)
    case Code => RunCode(i, Tasks.Work)
    case OwnedPoll => EnterOwned(i)
    case OwnedPick =>
      if HasCurrent(s, i) && Current(s, i).status.Suspended? then JumpToTask(i) else JumpToLoop(i)
    case Arrived => Finish(i)
    case Stashing => StashUnowned(i)
    case Ready => ContinueTask(i)
  }

  /** No thread is ever stuck in its loop. */
  lemma ThreadsMove(s: State, i: nat)
    requires Reachable(s) && i < |s.schedulers|
    ensures Enabled(s, NextStep(s, i))
  {
    AssertionsHold(s, i);
    ReachableInv(s);
    assert SchedulerOk(s.schedulers[i], i, s.tasks);
  }

  // ------------------------------------------------------------------ pinning

  /** A pinned task is pushed to, queued on, taken by and executed by its own scheduler only. */
  lemma PinnedStaysHome(s: State, i: nat, t: nat)
    requires Reachable(s) && t < |s.tasks| && s.tasks[t].pin.Some?
    requires Executes(s, i, t) || OnItsWay(s, i, t)
    ensures s.tasks[t].pin == Some(i)
  {
    ReachableInv(s);
    assert SchedulerOk(s.schedulers[i], i, s.tasks);
    ClaimIsAllowed(s, i, t);
  }

  lemma ClaimIsAllowed(s: State, i: nat, t: nat)
    requires i < |s.schedulers| && SchedulerOk(s.schedulers[i], i, s.tasks)
    requires Executes(s, i, t) || OnItsWay(s, i, t)
    ensures t < |s.tasks| && PinAllows(s.tasks[t], i)
  {
  }

  /** Task t has a live ScopedPin in every state of the run. */
  predicate PinnedThroughout(s: State, steps: seq<Step>, t: nat)
    requires Legal(s, steps)
    decreases |steps|
  {
    t < |s.tasks| && s.tasks[t].frames != []
    && (steps != [] ==> PinnedThroughout(Apply(s, steps[0]), steps[1..], t))
  }

  lemma CodeKeepsPin(t: Task, a: Tasks.Action)
    requires Tasks.Inv(t) && Tasks.Guard(t, a) && t.frames != [] && Tasks.Apply(t, a).frames != []
    ensures Tasks.Apply(t, a).pin == t.pin
  {
  }

  /** Only the task's own code takes and drops its pins. */
  lemma OthersKeepPin(s: State, step: Step, t: nat)
    requires Enabled(s, step) && t < |s.tasks|
    requires step.RunCode? ==> s.schedulers[step.i].current != Some(t)
    ensures t < |Apply(s, step).tasks| && Apply(s, step).tasks[t].pin == s.tasks[t].pin
  {
  }

  lemma StepKeepsPin(s: State, step: Step, t: nat)
    requires Inv(s) && Enabled(s, step) && t < |s.tasks| && s.tasks[t].frames != []
    requires t < |Apply(s, step).tasks| && Apply(s, step).tasks[t].frames != []
    ensures Apply(s, step).tasks[t].pin == s.tasks[t].pin
  {
    if step.RunCode? && s.schedulers[step.i].current == Some(t) {
      assert TaskOk(s.tasks[t], |s.schedulers|);
      CodeKeepsPin(s.tasks[t], step.a);
    } else {
      OthersKeepPin(s, step, t);
    }
  }

  /** For the lifetime of any nesting of ScopedPins the task does not migrate. */
  lemma {:induction false} NoMigration(s: State, steps: seq<Step>, t: nat, i: nat)
    requires Reachable(s) && Legal(s, steps) && PinnedThroughout(s, steps, t)
    requires var s' := After(s, steps); Executes(s', i, t) || OnItsWay(s', i, t)
    ensures s.tasks[t].pin == Some(i)
  {
    ReachableInv(s);
    var n: nat, before: seq<Step> :| Legal(Initial(n), before) && s == After(Initial(n), before);
    RunsCompose(Initial(n), before, steps);
    KeepsPinThroughout(s, steps, t);
    ReachableInv(After(s, steps));
    assert TaskOk(After(s, steps).tasks[t], |After(s, steps).schedulers|);
    PinnedStaysHome(After(s, steps), i, t);
  }

  lemma {:induction false} KeepsPinThroughout(s: State, steps: seq<Step>, t: nat)
    requires Inv(s) && Legal(s, steps) && PinnedThroughout(s, steps, t)
    ensures t < |After(s, steps).tasks| && After(s, steps).tasks[t].pin == s.tasks[t].pin
    ensures After(s, steps).tasks[t].frames != []
    decreases |steps|
  {
    if steps != [] {
      var s1 := Apply(s, steps[0]);
      RuntimeProofs.Keeps(s, steps[0]);
      StepKeepsPin(s, steps[0], t);
      KeepsPinThroughout(s1, steps[1..], t);
    }
  }

  lemma {:induction false} RunsCompose(s: State, a: seq<Step>, b: seq<Step>)
    requires Legal(s, a) && Legal(After(s, a), b)
    ensures Legal(s, a + b) && After(s, a + b) == After(After(s, a), b)
    decreases |a|
  {
    if a == [] {
      assert a + b == b;
    } else {
      assert (a + b)[0] == a[0] && (a + b)[1..] == a[1..] + b;
      RunsCompose(Apply(s, a[0]), a[1..], b);
    }
  }
}
