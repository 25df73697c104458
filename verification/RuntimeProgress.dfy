/**
 * Nobody is shut out for good: from every reachable state, whatever happened before, each task that
 * is not dead can still be run.
 */
module RuntimeProgress {
  import opened Options
  import opened Runtime
  import opened RuntimeTheorems
  import RuntimeLaws
  import Tasks

  /** Some thread executes the code of task t. */
  ghost predicate Runs(s: State, t: nat) {
    exists i :: 0 <= i < |s.schedulers| && RunsAt(s, i, t)
  }

  predicate RunsAt(s: State, i: nat, t: nat) { At(s, i, Code) && s.schedulers[i].current == Some(t) }

  /** The steps lead from s to a state in which task t is run. */
  ghost predicate Leads(s: State, steps: seq<Step>, t: nat) {
    Legal(s, steps) && Runs(After(s, steps), t)
  }

  lemma OneMore(s: State, step: Step, rest: seq<Step>, t: nat)
    requires Enabled(s, step) && Leads(Apply(s, step), rest, t)
    ensures Leads(s, [step] + rest, t)
  {
    assert ([step] + rest)[1..] == rest;
  }

  lemma StaysReachable(s: State, step: Step)
    requires Reachable(s) && Enabled(s, step)
    ensures Reachable(Apply(s, step))
  {
    var steps := [step];
    assert steps[1..] == [] && Legal(Apply(s, step), []);
    assert After(s, steps) == After(Apply(s, step), steps[1..]);
    RuntimeLaws.ReachesOn(s, steps);
  }

  // ------------------------------------------------------------------ where a thread goes

  /** Where a thread that executes no code goes next, and that it leaves its queues alone. */
  predicate Moved(c: Scheduler, d: Scheduler) {
    && d.soft == c.soft && d.hard == c.hard
    && (!c.pc.OwnedPoll? ==> d.current == c.current)
    && match c.pc
       case LoopTop => d.pc.LoopPick?
       case LoopPick => c.current.Some? ==> d.pc.Code? || d.pc.Arrived?
       case Code => true
       case OwnedPoll => d.pc.OwnedPick? && d.current.None? && d.suspending == c.current
       case OwnedPick => d.suspending == c.suspending && (d.pc.LoopTop? || (d.pc.Arrived? && c.current.Some?))
       case Arrived => d.pc.Stashing?
       case Stashing => d.pc.Ready?
       case Ready => d.pc.Code?
  }

  lemma LoopMoves(s: State, i: nat)
    requires i < |s.schedulers| && Enabled(s, NextStep(s, i)) && (At(s, i, LoopTop) || At(s, i, LoopPick))
    requires s.schedulers[i].current.Some? ==> HasCurrent(s, i)
    ensures i < |Apply(s, NextStep(s, i)).schedulers|
    ensures Moved(s.schedulers[i], Apply(s, NextStep(s, i)).schedulers[i])
  {
  }

  lemma OwnedMoves(s: State, i: nat)
    requires i < |s.schedulers| && Enabled(s, NextStep(s, i)) && (At(s, i, OwnedPoll) || At(s, i, OwnedPick))
    ensures i < |Apply(s, NextStep(s, i)).schedulers|
    ensures Moved(s.schedulers[i], Apply(s, NextStep(s, i)).schedulers[i])
  {
  }

  lemma TailMoves(s: State, i: nat)
    requires i < |s.schedulers| && Enabled(s, NextStep(s, i))
    requires At(s, i, Arrived) || At(s, i, Stashing) || At(s, i, Ready)
    ensures i < |Apply(s, NextStep(s, i)).schedulers|
    ensures Moved(s.schedulers[i], Apply(s, NextStep(s, i)).schedulers[i])
  {
  }

  lemma CurrentExists(s: State, i: nat)
    requires Reachable(s) && i < |s.schedulers|
    ensures s.schedulers[i].current.Some? ==> HasCurrent(s, i)
    ensures s.schedulers[i].suspending.Some? ==> HasSuspending(s, i)
    ensures At(s, i, Code) ==> HasCurrent(s, i) && Tasks.Executing(Current(s, i)) && s.schedulers[i].suspending.None?
    ensures At(s, i, OwnedPoll) ==> s.schedulers[i].suspending.None?
    ensures s.schedulers[i].suspending.Some? ==>
              At(s, i, LoopTop) || At(s, i, OwnedPick) || At(s, i, Arrived)
  {
    ReachableInv(s);
    assert SchedulerOk(s.schedulers[i], i, s.tasks);
  }

  lemma ThreadMoves(s: State, i: nat)
    requires Reachable(s) && i < |s.schedulers| && !At(s, i, Code)
    ensures Enabled(s, NextStep(s, i)) && i < |Apply(s, NextStep(s, i)).schedulers|
    ensures Moved(s.schedulers[i], Apply(s, NextStep(s, i)).schedulers[i])
  {
    ThreadsMove(s, i);
    CurrentExists(s, i);
    match s.schedulers[i].pc
    case LoopTop => LoopMoves(s, i);
    case LoopPick => LoopMoves(s, i);
    case OwnedPoll => OwnedMoves(s, i);
    case OwnedPick => OwnedMoves(s, i);
    case _ => TailMoves(s, i);
  }

  // ------------------------------------------------------------------ a task that was taken

  /** How many steps a thread that has taken a task is from running it, at most. */
  function Distance(pc: Pc): nat {
    match pc
    case Code => 0
    case Ready => 1
    case Stashing => 2
    case Arrived => 3
    case LoopPick => 4
    case LoopTop => 5
    case OwnedPick => 6
    case OwnedPoll => 7
  }

  predicate Has(s: State, i: nat, t: nat) {
    i < |s.schedulers| && s.schedulers[i].current == Some(t) && !s.schedulers[i].pc.OwnedPoll?
  }

  lemma TakenMovesOn(s: State, i: nat, t: nat)
    requires Reachable(s) && Has(s, i, t) && !At(s, i, Code)
    ensures Enabled(s, NextStep(s, i))
    ensures var s' := Apply(s, NextStep(s, i));
            Has(s', i, t) && Distance(s'.schedulers[i].pc) < Distance(s.schedulers[i].pc)
  {
    ThreadMoves(s, i);
  }

  lemma {:induction false} TakenCanBeRun(s: State, i: nat, t: nat) returns (steps: seq<Step>)
    requires Reachable(s) && Has(s, i, t)
    ensures Leads(s, steps, t)
    decreases Distance(s.schedulers[i].pc)
  {
    if At(s, i, Code) {
      assert RunsAt(s, i, t);
      steps := [];
    } else {
      TakenMovesOn(s, i, t);
      var step := NextStep(s, i);
      StaysReachable(s, step);
      var rest := TakenCanBeRun(Apply(s, step), i, t);
      steps := [step] + rest;
      OneMore(s, step, rest, t);
    }
  }

  // ------------------------------------------------------------------ a task that is queued

  /** A thread's way to its next look at the queues: its code yields and suspends. */
  function Toward(s: State, i: nat): Step
    requires i < |s.schedulers|
  {
    if At(s, i, Code) then
      if HasCurrent(s, i) && Tasks.Settled(Current(s, i).phase) then Suspend(i) else RunCode(i, Tasks.Yield)
    else NextStep(s, i)
  }

  /** How many steps that takes, at most. */
  function ToGo(s: State, i: nat): nat
    requires i < |s.schedulers|
  {
    var c := s.schedulers[i];
    match c.pc
    case OwnedPoll => 1
    case Code => if HasCurrent(s, i) && Tasks.Settled(Current(s, i).phase) then 2 else 3
    case Ready => 4
    case Stashing => 5
    case Arrived => 6
    case LoopPick => if c.current.Some? then 7 else 0
    case LoopTop => if c.current.Some? then 8 else 1
    case OwnedPick => if c.current.Some? then 9 else 0
  }

  ghost predicate Approaches(s: State, s': State, i: nat) {
    i < |s.schedulers| == |s'.schedulers| && ToGo(s', i) < ToGo(s, i)
    && s'.schedulers[i].soft == s.schedulers[i].soft && s'.schedulers[i].hard == s.schedulers[i].hard
  }

  lemma CodeMakesWay(s: State, i: nat)
    requires Reachable(s) && At(s, i, Code)
    ensures Enabled(s, Toward(s, i)) && Approaches(s, Apply(s, Toward(s, i)), i)
  {
    CurrentExists(s, i);
  }

  lemma LoopMakesWay(s: State, i: nat)
    requires Reachable(s) && i < |s.schedulers| && !RuntimeLaws.Looking(s, i) && !At(s, i, Code)
    ensures Enabled(s, Toward(s, i)) && Approaches(s, Apply(s, Toward(s, i)), i)
  {
    ThreadMoves(s, i);
  }

  predicate QueuedAt(s: State, i: nat, q: Class, k: nat, t: nat) {
    i < |s.schedulers| && k < |Queue(s.schedulers[i], q)| && Queue(s.schedulers[i], q)[k] == t
  }

  lemma DequeueMoves(s: State, i: nat, q: Class, k: nat, t: nat)
    requires RuntimeLaws.Looking(s, i) && QueuedAt(s, i, q, k, t)
    ensures Enabled(s, Dequeue(i, q))
    ensures if k == 0 then Has(Apply(s, Dequeue(i, q)), i, t) else QueuedAt(Apply(s, Dequeue(i, q)), i, q, k - 1, t)
  {
    var queue := Queue(s.schedulers[i], q);
    assert Queue(Apply(s, Dequeue(i, q)).schedulers[i], q) == queue[1..];
  }

  /** The scheduler runs the tasks before it in the queue, each of which yields at once. */
  lemma {:induction false} QueuedCanBeRun(s: State, i: nat, q: Class, k: nat, t: nat) returns (steps: seq<Step>)
    requires Reachable(s) && QueuedAt(s, i, q, k, t)
    ensures Leads(s, steps, t)
    decreases k, ToGo(s, i)
  {
    var step, rest;
    if RuntimeLaws.Looking(s, i) {
      step := Dequeue(i, q);
      DequeueMoves(s, i, q, k, t);
      StaysReachable(s, step);
      if k == 0 {
        rest := TakenCanBeRun(Apply(s, step), i, t);
      } else {
        rest := QueuedCanBeRun(Apply(s, step), i, q, k - 1, t);
      }
    } else {
      step := Toward(s, i);
      if At(s, i, Code) {
        CodeMakesWay(s, i);
      } else {
        LoopMakesWay(s, i);
      }
      StaysReachable(s, step);
      rest := QueuedCanBeRun(Apply(s, step), i, q, k, t);
    }
    steps := [step] + rest;
    OneMore(s, step, rest, t);
  }

  // ------------------------------------------------------------------ any task

  lemma PushedCanBeRun(s: State, i: nat, q: Class, t: nat) returns (steps: seq<Step>)
    requires Reachable(s) && i < |s.schedulers| && t in Pushes(s.schedulers[i], q)
    ensures Leads(s, steps, t)
  {
    var step := Deliver(i, t, q);
    StaysReachable(s, step);
    RuntimeLaws.PushIsInFront(s, i, t, q);
    var rest := QueuedCanBeRun(Apply(s, step), i, q, 0, t);
    steps := [step] + rest;
    OneMore(s, step, rest, t);
  }

  lemma ScheduledCanBeRun(s: State, t: nat) returns (steps: seq<Step>)
    requires Reachable(s) && t < |s.tasks| && s.tasks[t].scheduled
    ensures Leads(s, steps, t)
  {
    NoDoubleRun(s, t);
    var i: nat :| OnItsWay(s, i, t);
    var c := s.schedulers[i];
    if t in c.softPushes {
      steps := PushedCanBeRun(s, i, Soft, t);
    } else if t in c.hardPushes {
      steps := PushedCanBeRun(s, i, Hard, t);
    } else if t in c.soft {
      var k :| 0 <= k < |c.soft| && c.soft[k] == t;
      steps := QueuedCanBeRun(s, i, Soft, k, t);
    } else if t in c.hard {
      var k :| 0 <= k < |c.hard| && c.hard[k] == t;
      steps := QueuedCanBeRun(s, i, Hard, k, t);
    } else {
      steps := TakenCanBeRun(s, i, t);
    }
  }

  /** The first resume of a new task and any resume of a sleeping one schedule it. */
  lemma ResumeSchedules(s: State, t: nat, target: nat)
    requires Reachable(s) && t < |s.tasks| && target < |s.schedulers|
    requires var status := s.tasks[t].status; status.Starting? || status.Listening? || status.Suspended?
    ensures Enabled(s, External(t, Tasks.Resume, target))
    ensures Apply(s, External(t, Tasks.Resume, target)).tasks[t].scheduled
  {
    RuntimeLaws.AnybodyCanAct(s, External(t, Tasks.Resume, target));
  }

  lemma WaitingCanBeRun(s: State, t: nat) returns (steps: seq<Step>)
    requires Reachable(s) && t < |s.tasks| && s.schedulers != []
    requires var status := s.tasks[t].status; status.Starting? || status.Listening? || status.Suspended?
    ensures Leads(s, steps, t)
  {
    var step := External(t, Tasks.Resume, 0);
    ResumeSchedules(s, t, 0);
    StaysReachable(s, step);
    var rest := ScheduledCanBeRun(Apply(s, step), t);
    steps := [step] + rest;
    OneMore(s, step, rest, t);
  }

  /** Thread i is suspending task t. */
  predicate Suspends(s: State, i: nat, t: nat) {
    Executes(s, i, t) && !At(s, i, Code)
  }

  function LeftToSuspend(pc: Pc): nat {
    if pc.OwnedPoll? then 2 else if pc.OwnedPick? then 1 else 0
  }

  lemma SuspendingMovesOn(s: State, i: nat, t: nat)
    requires Reachable(s) && Suspends(s, i, t) && !Parked(s, i)
    ensures Enabled(s, NextStep(s, i))
    ensures var s' := Apply(s, NextStep(s, i));
            Suspends(s', i, t) && LeftToSuspend(s'.schedulers[i].pc) < LeftToSuspend(s.schedulers[i].pc)
  {
    CurrentExists(s, i);
    ThreadMoves(s, i);
  }

  /** The thread is about to finish the suspension of the task it parked. */
  predicate Parked(s: State, i: nat) { At(s, i, LoopTop) || At(s, i, Arrived) }

  lemma ParkedIsSuspended(s: State, i: nat, t: nat)
    requires Reachable(s) && Suspends(s, i, t) && Parked(s, i)
    ensures Enabled(s, Finish(i))
    ensures var s' := Apply(s, Finish(i)); t < |s'.tasks| && s'.tasks[t].status.Suspended? && s'.schedulers != []
  {
    CurrentExists(s, i);
  }

  lemma {:induction false} SuspendingCanBeRun(s: State, i: nat, t: nat) returns (steps: seq<Step>)
    requires Reachable(s) && Suspends(s, i, t)
    ensures Leads(s, steps, t)
    decreases LeftToSuspend(s.schedulers[i].pc)
  {
    var step := NextStep(s, i);
    var rest;
    if Parked(s, i) {
      ParkedIsSuspended(s, i, t);
      StaysReachable(s, step);
      rest := WaitingCanBeRun(Apply(s, step), t);
    } else {
      SuspendingMovesOn(s, i, t);
      StaysReachable(s, step);
      rest := SuspendingCanBeRun(Apply(s, step), i, t);
    }
    steps := [step] + rest;
    OneMore(s, step, rest, t);
  }

  /** From every reachable state a run leads to one in which a thread executes the task, unless it is dead. */
  lemma LiveTasksCanBeRun(s: State, t: nat) returns (steps: seq<Step>)
    requires Reachable(s) && t < |s.tasks| && !s.tasks[t].status.Dead? && s.schedulers != []
    ensures Leads(s, steps, t)
  {
    if s.tasks[t].status.Running? {
      NoDoubleRun(s, t);
      var i: nat :| Executes(s, i, t);
      if At(s, i, Code) && s.schedulers[i].current == Some(t) {
        assert RunsAt(s, i, t);
        steps := [];
      } else {
        CurrentExists(s, i);
        steps := SuspendingCanBeRun(s, i, t);
      }
    } else {
      steps := WaitingCanBeRun(s, t);
    }
  }
}
