/**
 * The waiting loop of Mutex::lock and Condition::await, over one wait queue and any number of
 * tasks whose other activity is arbitrary.  A waiter tests `released`, calls process() (whose
 * handlers may do anything, including waiting again), tests once more, and suspends.  A resume
 * issued by a release is in flight from the moment the queue's lock is dropped until it takes the
 * task's lock.
 */
module Waits {
  import opened Options
  import opened TicketQueue
  import Tasks

  /**
   * Testing: at the head of the loop.  Handling: inside process().  Rechecking: process() has
   * returned.  Sleeping: committed to suspend(), until the task runs again.
   */
  datatype At = Testing | Handling | Rechecking | Sleeping

  datatype Waiter = Waiter(task: nat, at: At)

  datatype Wait = Wait(q: Tickets, waiters: map<nat, Waiter>, tasks: seq<Tasks.Task>, inflight: multiset<nat>)

  datatype Step =
    | Join(task: nat)
    | Test(ticket: nat)
    | Processed(ticket: nat)
    | Recheck(ticket: nat)
    | Throw(ticket: nat)
    | Grant
    | Deliver(task: nat)
    | Act(task: nat, a: Tasks.Action)

  /** The task's code is not inside the waiting loop, other than in handlers run by process(). */
  predicate Free(w: Wait, task: nat) {
    forall k :: k in w.waiters && w.waiters[k].task == task ==> w.waiters[k].at.Handling?
  }

  /** The waiter is the task's innermost one. */
  predicate Innermost(w: Wait, ticket: nat) {
    ticket in w.waiters
    && forall k :: k in w.waiters && w.waiters[k].task == w.waiters[ticket].task ==> k <= ticket
  }

  /** suspend() is called from a nested wait of another kind, or from this loop. */
  predicate MaySuspend(w: Wait, task: nat) {
    Free(w, task) || exists k :: k in w.waiters && w.waiters[k] == Waiter(task, Sleeping)
  }

  predicate Released(w: Wait, ticket: nat) { ticket <= w.q.released }

  /** The waiter of this step sees its grant and leaves the loop. */
  predicate Leaves(w: Wait, step: Step) {
    (step.Test? || step.Recheck?) && Released(w, step.ticket)
  }

  predicate WaiterIs(w: Wait, ticket: nat, at: At) {
    ticket in w.waiters && w.waiters[ticket].at == at && w.waiters[ticket].task < |w.tasks|
  }

  predicate Enabled(w: Wait, step: Step) {
    match step
    case Join(t) => t < |w.tasks| && Tasks.Executing(w.tasks[t]) && Free(w, t)
    case Test(k) => WaiterIs(w, k, Testing)
    case Processed(k) =>
      WaiterIs(w, k, Handling) && Innermost(w, k) && Tasks.Guard(w.tasks[w.waiters[k].task], Tasks.Process)
    case Recheck(k) => WaiterIs(w, k, Rechecking)
    case Throw(k) =>
      WaiterIs(w, k, Handling) && Innermost(w, k) && Tasks.Executing(w.tasks[w.waiters[k].task])
    case Grant => true
    case Deliver(t) => t in w.inflight && t < |w.tasks|
    case Act(t, a) =>
      t < |w.tasks| && Tasks.Guard(w.tasks[t], a) && Tasks.Placed(w.tasks[t], a)
      && (Tasks.ByCode(a) ==> Free(w, t))
      && (a.Park? ==> MaySuspend(w, t))
      && (a.Return? ==> forall k :: k in w.waiters ==> w.waiters[k].task != t)
  }

  function Moved(w: Wait, ticket: nat, at: At): Wait
    requires ticket in w.waiters
  {
    w.(waiters := w.waiters[ticket := w.waiters[ticket].(at := at)])
  }

  function Gone(w: Wait, ticket: nat): Wait {
    w.(waiters := w.waiters - {ticket})
  }

  function Acting(w: Wait, t: nat, a: Tasks.Action): Wait
    requires t < |w.tasks| && Tasks.Guard(w.tasks[t], a)
  {
    w.(tasks := w.tasks[t := Tasks.Apply(w.tasks[t], a)])
  }

  /** The waiter whose task runs again returns from suspend(). */
  function Woken(w: Wait, t: nat): Wait {
    w.(waiters := map k | k in w.waiters ::
      if w.waiters[k] == Waiter(t, Sleeping) then Waiter(t, Testing) else w.waiters[k])
  }

  function Joined(w: Wait, t: nat): Wait
    requires t < |w.tasks| && Tasks.Executing(w.tasks[t])
  {
    Acting(w, t, Tasks.Work).(q := TicketQueue.Join(w.q, t), waiters := w.waiters[w.q.next := Waiter(t, Testing)])
  }

  /** unlock() and signal(): the queue is popped up to the earliest waiter, whose resume is in flight. */
  function Granted(w: Wait): Wait {
    var (q, task) := Release(w.q);
    w.(q := q, inflight := if task.Some? then w.inflight + multiset{task.value} else w.inflight)
  }

  /** The catch block up to the forwarding of a grant already received. */
  function Thrown(w: Wait, ticket: nat): Wait {
    if w.q.released < ticket <= w.q.released + |w.q.slots| then Gone(w, ticket).(q := Cancel(w.q, ticket))
    else Gone(w, ticket)
  }

  function Apply(w: Wait, step: Step): Wait
    requires Enabled(w, step)
  {
    match step
    case Join(t) => Joined(w, t)
    case Test(k) => if Released(w, k) then Gone(w, k) else Moved(w, k, Handling)
    case Processed(k) => Acting(Moved(w, k, Rechecking), w.waiters[k].task, Tasks.Process)
    case Recheck(k) => if Released(w, k) then Gone(w, k) else Moved(w, k, Sleeping)
    case Throw(k) => Thrown(w, k)
    case Grant => Granted(w)
    case Deliver(t) => Acting(w, t, Tasks.Resume).(inflight := w.inflight - multiset{t})
    case Act(t, a) => if a.Continue? then Woken(Acting(w, t, a), t) else Acting(w, t, a)
  }

  /** A fresh queue among new tasks; homes are the pins they were built with. */
  function Initial(homes: seq<Option<nat>>): Wait {
    Wait(Empty(), map[], seq(|homes|, i requires 0 <= i < |homes| => Tasks.NewTask(homes[i])), multiset{})
  }

  // ------------------------------------------------------------------ the invariant

  /** What the place of a waiter in the loop says about its task. */
  ghost predicate WaiterOk(ticket: nat, at: At, t: Tasks.Task, released: nat, resumed: bool) {
    match at
    case Testing => Tasks.Executing(t)
    case Handling => t.status.Running? || t.status.Suspended?
    case Rechecking => Tasks.Executing(t) && t.phase.Processed?
    case Sleeping =>
      (t.status.Running? || t.status.Suspended?) && t.phase.Processed? && t.expected.Some?
      && (ticket <= released ==> resumed || t.resumes > t.expected.value)
  }

  ghost predicate WaitersOk(w: Wait) {
    forall k :: k in w.waiters ==>
      w.waiters[k].task < |w.tasks|
      && WaiterOk(k, w.waiters[k].at, w.tasks[w.waiters[k].task], w.q.released, w.waiters[k].task in w.inflight)
  }

  /** Only the innermost waiter of a task is anywhere but inside process(). */
  ghost predicate Nested(w: Wait) {
    forall k, l :: k in w.waiters && l in w.waiters && k < l && w.waiters[k].task == w.waiters[l].task ==>
      w.waiters[k].at.Handling?
  }

  /** A slot holds the task of the waiter whose ticket it belongs to, or null if that waiter gave up. */
  ghost predicate SlotsOk(w: Wait) {
    && Aligned(w.q)
    && (forall k :: k in w.waiters ==> 0 < k < w.q.next)
    && (forall k :: w.q.released < k < w.q.next ==>
          w.q.slots[k - w.q.released - 1] == if k in w.waiters then Some(w.waiters[k].task) else None)
  }

  ghost predicate TasksOk(w: Wait) {
    forall t :: 0 <= t < |w.tasks| ==> Tasks.Inv(w.tasks[t])
  }

  ghost predicate Inv(w: Wait) {
    SlotsOk(w) && WaitersOk(w) && Nested(w) && TasksOk(w)
  }

  lemma InitialInv(homes: seq<Option<nat>>)
    ensures Inv(Initial(homes))
  {
  }

  // ------------------------------------------------------------------ preservation

  /** A task's own steps leave its waiters where the loop expects them. */
  lemma ActKeepsWaiter(w: Wait, t: nat, a: Tasks.Action, k: nat)
    requires Inv(w) && Enabled(w, Act(t, a)) && k in w.waiters && w.waiters[k].task == t
    ensures var at := if a.Continue? && w.waiters[k].at.Sleeping? then Testing else w.waiters[k].at;
            WaiterOk(k, at, Tasks.Apply(w.tasks[t], a), w.q.released, t in w.inflight)
  {
    var at, task, released, resumed := w.waiters[k].at, w.tasks[t], w.q.released, t in w.inflight;
    assert WaiterOk(k, at, task, released, resumed) && Tasks.Inv(task);
    if Tasks.ByAnyone(a) {
      AnyoneKeepsWaiter(k, at, task, a, released, resumed);
    } else if Tasks.ByCode(a) {
      assert at.Handling?;
    } else {
      assert a.Park? ==> at.Handling? || at.Sleeping? by {
        if a.Park? {
          ParkedWaiter(w, t, k);
        }
      }
      SchedulerKeepsWaiter(k, at, task, a, released, resumed);
    }
  }

  /** Sends, resumes and callbacks do not disturb a waiter. */
  lemma AnyoneKeepsWaiter(k: nat, at: At, t: Tasks.Task, a: Tasks.Action, released: nat, resumed: bool)
    requires WaiterOk(k, at, t, released, resumed) && Tasks.Inv(t) && Tasks.Guard(t, a) && Tasks.ByAnyone(a)
    ensures WaiterOk(k, at, Tasks.Apply(t, a), released, resumed)
  {
  }

  /** The scheduler parks a waiter only where it suspends. */
  lemma SchedulerKeepsWaiter(k: nat, at: At, t: Tasks.Task, a: Tasks.Action, released: nat, resumed: bool)
    requires WaiterOk(k, at, t, released, resumed) && Tasks.Inv(t) && Tasks.Guard(t, a)
    requires !Tasks.ByAnyone(a) && !Tasks.ByCode(a) && !a.Return?
    requires a.Park? ==> at.Handling? || at.Sleeping?
    ensures WaiterOk(k, if a.Continue? && at.Sleeping? then Testing else at, Tasks.Apply(t, a), released, resumed)
  {
  }

  lemma ParkedWaiter(w: Wait, t: nat, k: nat)
    requires Nested(w) && MaySuspend(w, t) && k in w.waiters && w.waiters[k].task == t
    ensures w.waiters[k].at.Handling? || w.waiters[k].at.Sleeping?
  {
    if !Free(w, t) {
      var l :| l in w.waiters && w.waiters[l] == Waiter(t, Sleeping);
      assert k == l || k < l || l < k;
    }
  }

  lemma ActKeepsWaiters(w: Wait, t: nat, a: Tasks.Action)
    requires Inv(w) && Enabled(w, Act(t, a))
    ensures WaitersOk(Apply(w, Act(t, a)))
  {
    var w' := Apply(w, Act(t, a));
    forall k | k in w'.waiters
      ensures w'.waiters[k].task == w.waiters[k].task < |w'.tasks|
      ensures WaiterOk(k, w'.waiters[k].at, w'.tasks[w'.waiters[k].task], w'.q.released,
                       w'.waiters[k].task in w'.inflight)
    {
      if w.waiters[k].task == t {
        ActKeepsWaiter(w, t, a, k);
      }
    }
  }

  lemma KeepsAct(w: Wait, t: nat, a: Tasks.Action)
    requires Inv(w) && Enabled(w, Act(t, a))
    ensures Inv(Apply(w, Act(t, a)))
  {
    Tasks.Keeps(w.tasks[t], a);
    ActKeepsWaiters(w, t, a);
  }

  /** Only the task of one waiter, or its place, changes. */
  lemma OneWaiterOk(w: Wait, k: nat, at: At, x: Tasks.Task)
    requires WaitersOk(w) && k in w.waiters && Innermost(w, k) && Nested(w)
    requires WaiterOk(k, at, x, w.q.released, w.waiters[k].task in w.inflight)
    requires x.status.Running? || x.status.Suspended?
    ensures WaitersOk(Moved(w, k, at).(tasks := w.tasks[w.waiters[k].task := x]))
  {
    assert forall l :: l in w.waiters && l != k && w.waiters[l].task == w.waiters[k].task ==> w.waiters[l].at.Handling?;
  }

  lemma OneWaiterNested(w: Wait, k: nat, at: At, tasks: seq<Tasks.Task>)
    requires SlotsOk(w) && Nested(w) && k in w.waiters && Innermost(w, k)
    ensures SlotsOk(Moved(w, k, at).(tasks := tasks)) && Nested(Moved(w, k, at).(tasks := tasks))
  {
  }

  lemma OneWaiter(w: Wait, k: nat, at: At, x: Tasks.Task)
    requires Inv(w) && k in w.waiters && Innermost(w, k) && Tasks.Inv(x)
    requires WaiterOk(k, at, x, w.q.released, w.waiters[k].task in w.inflight)
    requires x.status.Running? || x.status.Suspended?
    ensures Inv(Moved(w, k, at).(tasks := w.tasks[w.waiters[k].task := x]))
  {
    OneWaiterOk(w, k, at, x);
    OneWaiterNested(w, k, at, w.tasks[w.waiters[k].task := x]);
  }

  /** A waiter outside process() is its task's innermost one. */
  lemma ActiveIsInnermost(w: Wait, k: nat)
    requires Nested(w) && k in w.waiters && !w.waiters[k].at.Handling?
    ensures Innermost(w, k)
  {
  }

  lemma KeepsLeave(w: Wait, k: nat)
    requires Inv(w) && k in w.waiters && Released(w, k)
    ensures Inv(Gone(w, k))
  {
  }

  lemma KeepsTest(w: Wait, k: nat)
    requires Inv(w) && Enabled(w, Test(k))
    ensures Inv(Apply(w, Test(k)))
  {
    if Released(w, k) {
      KeepsLeave(w, k);
    } else {
      var t := w.waiters[k].task;
      ActiveIsInnermost(w, k);
      assert WaiterOk(k, Testing, w.tasks[t], w.q.released, t in w.inflight) && Tasks.Inv(w.tasks[t]);
      OneWaiter(w, k, Handling, w.tasks[t]);
      assert w.tasks[t := w.tasks[t]] == w.tasks;
    }
  }

  lemma KeepsRecheck(w: Wait, k: nat)
    requires Inv(w) && Enabled(w, Recheck(k))
    ensures Inv(Apply(w, Recheck(k)))
  {
    if Released(w, k) {
      KeepsLeave(w, k);
    } else {
      var t := w.waiters[k].task;
      ActiveIsInnermost(w, k);
      assert WaiterOk(k, Rechecking, w.tasks[t], w.q.released, t in w.inflight) && Tasks.Inv(w.tasks[t]);
      OneWaiter(w, k, Sleeping, w.tasks[t]);
      assert w.tasks[t := w.tasks[t]] == w.tasks;
    }
  }

  lemma KeepsProcessed(w: Wait, k: nat)
    requires Inv(w) && Enabled(w, Processed(k))
    ensures Inv(Apply(w, Processed(k)))
  {
    var t := w.waiters[k].task;
    assert Tasks.Inv(w.tasks[t]);
    Tasks.Keeps(w.tasks[t], Tasks.Process);
    OneWaiter(w, k, Rechecking, Tasks.Apply(w.tasks[t], Tasks.Process));
  }

  lemma KeepsDeliver(w: Wait, t: nat)
    requires Inv(w) && Enabled(w, Deliver(t))
    ensures Inv(Apply(w, Deliver(t)))
  {
    Tasks.Keeps(w.tasks[t], Tasks.Resume);
    assert Tasks.Inv(w.tasks[t]);
  }

  lemma JoinKeepsSlots(w: Wait, t: nat)
    requires SlotsOk(w) && Enabled(w, Join(t))
    ensures SlotsOk(Joined(w, t))
  {
  }

  lemma KeepsJoin(w: Wait, t: nat)
    requires Inv(w) && Enabled(w, Join(t))
    ensures Inv(Joined(w, t))
  {
    Tasks.Keeps(w.tasks[t], Tasks.Work);
    JoinKeepsSlots(w, t);
  }

  /** A grant leaves the earliest waiter's resume in flight. */
  lemma GrantReachesWaiter(w: Wait, k: nat)
    requires Inv(w) && k in w.waiters && w.q.released < k <= Granted(w).q.released
    ensures k == Granted(w).q.released && w.waiters[k].task in Granted(w).inflight
  {
    ReleaseGoesFirst(w.q);
    var (q, task) := Release(w.q);
    assert w.q.slots[k - w.q.released - 1] == Some(w.waiters[k].task);
    LiveEarliest(w.q, k);
    assert q.released == Live(w.q)[0] == k && task == Some(w.waiters[k].task);
  }

  lemma GrantKeepsSlots(w: Wait)
    requires SlotsOk(w)
    ensures SlotsOk(Granted(w))
  {
    ReleaseGoesFirst(w.q);
  }

  lemma KeepsGrant(w: Wait)
    requires Inv(w)
    ensures Inv(Granted(w))
  {
    ReleaseGoesFirst(w.q);
    GrantKeepsSlots(w);
    var w' := Granted(w);
    forall k | k in w.waiters
      ensures WaiterOk(k, w'.waiters[k].at, w'.tasks[w'.waiters[k].task], w'.q.released,
                       w'.waiters[k].task in w'.inflight)
    {
      if w.q.released < k <= w'.q.released {
        GrantReachesWaiter(w, k);
      }
    }
  }

  lemma ThrowKeepsSlots(w: Wait, k: nat)
    requires SlotsOk(w) && k in w.waiters
    ensures SlotsOk(Thrown(w, k))
  {
  }

  lemma ThrowKeepsWaiters(w: Wait, k: nat)
    requires WaitersOk(w) && Nested(w) && TasksOk(w)
    ensures WaitersOk(Thrown(w, k)) && Nested(Thrown(w, k)) && TasksOk(Thrown(w, k))
  {
  }

  lemma KeepsThrow(w: Wait, k: nat)
    requires Inv(w) && Enabled(w, Throw(k))
    ensures Inv(Thrown(w, k))
  {
    ThrowKeepsSlots(w, k);
    ThrowKeepsWaiters(w, k);
  }

  lemma Keeps(w: Wait, step: Step)
    requires Inv(w) && Enabled(w, step)
    ensures Inv(Apply(w, step))
  {
    match step
    case Join(t) => KeepsJoin(w, t);
    case Test(k) => KeepsTest(w, k);
    case Processed(k) => KeepsProcessed(w, k);
    case Recheck(k) => KeepsRecheck(w, k);
    case Throw(k) => KeepsThrow(w, k);
    case Grant => KeepsGrant(w);
    case Deliver(t) => KeepsDeliver(w, t);
    case Act(t, a) => KeepsAct(w, t, a);
  }

  // ------------------------------------------------------------------ what follows

  /**
   * The canceller's own slot: in the catch block with `released` below the ticket, the index
   * ticket - released - 1 is in bounds and the slot there is the canceller's, and no other is.
   */
  lemma CancelFindsOwnSlot(w: Wait, ticket: nat)
    requires SlotsOk(w) && ticket in w.waiters && w.q.released < ticket
    ensures 0 <= ticket - w.q.released - 1 < |w.q.slots|
    ensures w.q.slots[ticket - w.q.released - 1] == Some(w.waiters[ticket].task)
    ensures forall k :: k in w.waiters && k != ticket && w.q.released < k ==>
              0 <= k - w.q.released - 1 < |w.q.slots| && k - w.q.released - 1 != ticket - w.q.released - 1
    ensures |w.q.slots| == w.q.next - 1 - w.q.released
  {
  }

  /** The task was resumed 2^64 times or more since it last looked, between process() and suspend(). */
  predicate Flooded(t: Tasks.Task) { t.expected.Some? && t.resumes >= t.expected.value + Tasks.WORD }

  /** A waiter that sleeps although it has been granted has a resume in flight. */
  lemma NoSleepThroughGrant(w: Wait, ticket: nat)
    requires Inv(w) && WaiterIs(w, ticket, Sleeping) && Released(w, ticket)
    requires Tasks.Asleep(w.tasks[w.waiters[ticket].task])
    ensures w.waiters[ticket].task in w.inflight || Flooded(w.tasks[w.waiters[ticket].task])
  {
    var t := w.tasks[w.waiters[ticket].task];
    assert Tasks.Inv(t);
    Tasks.SleepersHaveSeenAll(t);
    assert WaiterOk(ticket, Sleeping, t, w.q.released, w.waiters[ticket].task in w.inflight);
  }

  // ------------------------------------------------------------------ waiters go on

  /** The step of the loop that a waiter at one of its tests takes. */
  function TestOf(w: Wait, ticket: nat): Step
    requires ticket in w.waiters
  {
    if w.waiters[ticket].at.Testing? then Test(ticket) else Recheck(ticket)
  }

  /** A waiter at a test can take it, and leaves the loop exactly if it has been released. */
  lemma TestsLeaveExactlyWhen(w: Wait, ticket: nat)
    requires Inv(w) && ticket in w.waiters && (w.waiters[ticket].at.Testing? || w.waiters[ticket].at.Rechecking?)
    ensures Enabled(w, TestOf(w, ticket))
    ensures var w' := Apply(w, TestOf(w, ticket));
            (ticket !in w'.waiters <==> ticket <= w.q.released)
            && (ticket in w'.waiters ==>
                  w'.waiters[ticket]
                  == w.waiters[ticket].(at := if w.waiters[ticket].at.Testing? then Handling else Sleeping))
            && (forall k :: k in w.waiters && k != ticket ==> k in w'.waiters && w'.waiters[k] == w.waiters[k])
            && w'.q == w.q && w'.tasks == w.tasks && w'.inflight == w.inflight
  {
  }

  /**
   * The innermost waiter of a task that executes goes on: while its handlers run they dispatch, or
   * process() returns, and a task that is to suspend does.
   */
  lemma WaitersGoOn(w: Wait, ticket: nat)
    requires Inv(w) && Innermost(w, ticket) && Tasks.Executing(w.tasks[w.waiters[ticket].task])
    ensures var t, at := w.waiters[ticket].task, w.waiters[ticket].at;
            (at.Handling? && (w.tasks[t].mailbox == [] || w.tasks[t].stopped) ==>
               Enabled(w, Processed(ticket)) && Apply(w, Processed(ticket)).waiters[ticket] == Waiter(t, Rechecking))
            && (at.Handling? ==> Enabled(w, Throw(ticket)) && ticket !in Apply(w, Throw(ticket)).waiters)
            && (at.Handling? && w.tasks[t].mailbox != [] ==> Enabled(w, Act(t, Tasks.Dispatch)))
            && (at.Sleeping? ==> Enabled(w, Act(t, Tasks.Park)))
  {
    var t := w.waiters[ticket].task;
    forall k | k in w.waiters && w.waiters[k].task == t && k != ticket
      ensures w.waiters[k].at.Handling?
    {
      assert k < ticket;
    }
  }

  /**
   * The task of a waiter executes, finishes its suspension, continues if it is scheduled, and is
   * then at the head of the loop; or it sleeps, and a resume in flight can arrive.
   */
  lemma TasksOfWaitersGoOn(w: Wait, ticket: nat)
    requires Inv(w) && ticket in w.waiters
    ensures var t, at := w.waiters[ticket].task, w.waiters[ticket].at;
            t < |w.tasks| && (t in w.inflight ==> Enabled(w, Deliver(t)))
            && (Tasks.Executing(w.tasks[t]) || Enabled(w, Act(t, Tasks.FinishSuspending))
                || Enabled(w, Act(t, Tasks.Continue)) || Tasks.Asleep(w.tasks[t]))
            && (at.Sleeping? && Enabled(w, Act(t, Tasks.Continue)) ==>
                  Apply(w, Act(t, Tasks.Continue)).waiters[ticket] == Waiter(t, Testing))
  {
    assert Tasks.Inv(w.tasks[w.waiters[ticket].task]);
  }

  /** Whoever executes outside the loop, or in a handler run inside it, can wait, and is then last in line. */
  lemma AnybodyCanWait(w: Wait, t: nat)
    requires Inv(w) && t < |w.tasks| && Tasks.Executing(w.tasks[t]) && Free(w, t)
    ensures Enabled(w, Join(t))
    ensures w.q.next !in w.waiters
    ensures var w' := Apply(w, Join(t));
            w'.waiters == w.waiters[w.q.next := Waiter(t, Testing)] && Live(w'.q) == Live(w.q) + [w.q.next]
            && Waiting(w'.q, w.q.next)
  {
    JoinGoesLast(w.q, t);
  }
}
