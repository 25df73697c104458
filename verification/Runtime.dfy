/**
 * The work-stealing runtime: N MultiTaskSchedulers sharing tasks.  A step is one critical
 * section under a queue's or a task's spinlock, or one private move of a scheduler's thread; a
 * push that has left the task's spinlock but not yet reached its queue is kept in softPushes or
 * hardPushes of the target.  Steps of different threads interleave freely.
 */
module Runtime {
  import opened Options
  import Tasks

  type Task = Tasks.Task

  /**
   * Where a scheduler's thread is.  LoopTop: at the head of unownedLoop, polling IO.  LoopPick:
   * after its finishSuspending.  Code: executing the current task.  OwnedPoll: at the head of
   * ownedLoop.  OwnedPick: looking for the next task on the stack of the suspending one.
   * Arrived, Stashing, Ready: the tail of ownedLoop, on the stack of the task jumped to.
   */
  datatype Pc = LoopTop | LoopPick | Code | OwnedPoll | OwnedPick | Arrived | Stashing | Ready

  datatype Scheduler = Scheduler(
    pc: Pc, current: Option<nat>, suspending: Option<nat>, unowned: Option<nat>, stash: seq<nat>,
    soft: seq<nat>, hard: seq<nat>, softPushes: multiset<nat>, hardPushes: multiset<nat>)

  /** contexts counts the stack contexts ever allocated; freed holds those deallocated. */
  datatype State = State(
    tasks: seq<Task>, schedulers: seq<Scheduler>, contexts: nat, freed: multiset<nat>)

  datatype Class = Soft | Hard

  datatype Step =
      // any thread
    | Create(home: Option<nat>)
    | External(t: nat, a: Tasks.Action, target: nat)
    | Deliver(i: nat, t: nat, c: Class)
      // the thread of scheduler i
    | IoCallback(i: nat, t: nat, frame: nat)
    | RunCode(i: nat, a: Tasks.Action)
    | Suspend(i: nat)
    | EnterOwned(i: nat)
    | Dequeue(i: nat, c: Class)
    | Steal(i: nat, j: nat, c: Class)
    | Idle(i: nat)
    | Finish(i: nat)
    | StartTask(i: nat)
    | JumpFromLoop(i: nat)
    | JumpToLoop(i: nat)
    | JumpToTask(i: nat)
    | StashUnowned(i: nat)
    | ContinueTask(i: nat)
    | ReturnTask(i: nat)

  const STASH_SIZE: nat := 256

  // ------------------------------------------------------------------ the steps

  /** A scheduler whose thread has just entered unownedLoop on a context of its own. */
  function NewScheduler(context: nat): Scheduler {
    Scheduler(LoopTop, None, None, Some(context), [], [], [], multiset{}, multiset{})
  }

  function Initial(n: nat): State {
    State([], seq(n, i requires 0 <= i < n => NewScheduler(i)), n, multiset{})
  }

  /** The scheduler that context::detail::resume hands a task to. */
  function Route(task: Task, target: nat): nat {
    if task.pin.Some? then task.pin.value else target
  }

  /** The scheduler's side of MultiTaskScheduler::resume, up to the push. */
  function Pushing(c: Scheduler, t: nat, status: Tasks.Status): Scheduler {
    if status.Suspended? then c.(hardPushes := c.hardPushes + multiset{t})
    else c.(softPushes := c.softPushes + multiset{t})
  }

  function Queue(c: Scheduler, q: Class): seq<nat> { if q.Soft? then c.soft else c.hard }

  function Pushes(c: Scheduler, q: Class): multiset<nat> { if q.Soft? then c.softPushes else c.hardPushes }

  function WithQueue(c: Scheduler, q: Class, items: seq<nat>): Scheduler {
    if q.Soft? then c.(soft := items) else c.(hard := items)
  }

  /** stashGet: the context handed out, the remaining stash and the number of contexts. */
  function StashGet(stash: seq<nat>, contexts: nat): (nat, seq<nat>, nat) {
    if stash != [] then (stash[|stash| - 1], stash[..|stash| - 1], contexts)
    else (contexts, stash, contexts + 1)
  }

  /** stashPut: the new stash and the contexts deallocated. */
  function StashPut(stash: seq<nat>, context: nat): (seq<nat>, multiset<nat>) {
    if |stash| < STASH_SIZE then (stash + [context], multiset{}) else (stash, multiset{context})
  }

  predicate At(s: State, i: nat, pc: Pc) { i < |s.schedulers| && s.schedulers[i].pc == pc }

  /** The current task of scheduler i exists. */
  predicate HasCurrent(s: State, i: nat) {
    i < |s.schedulers| && s.schedulers[i].current.Some? && s.schedulers[i].current.value < |s.tasks|
  }

  function Current(s: State, i: nat): Task
    requires HasCurrent(s, i)
  {
    s.tasks[s.schedulers[i].current.value]
  }

  predicate HasSuspending(s: State, i: nat) {
    i < |s.schedulers| && s.schedulers[i].suspending.Some? && s.schedulers[i].suspending.value < |s.tasks|
  }

  function Put(s: State, i: nat, c: Scheduler, t: nat, x: Task): State
    requires i < |s.schedulers| && t < |s.tasks|
  {
    s.(schedulers := s.schedulers[i := c], tasks := s.tasks[t := x])
  }

  function Place(s: State, i: nat, c: Scheduler): State
    requires i < |s.schedulers|
  {
    s.(schedulers := s.schedulers[i := c])
  }

  predicate Enabled(s: State, step: Step) {
    match step
    case Create(home) => home.Some? ==> home.value < |s.schedulers|
    case External(t, a, target) =>
      t < |s.tasks| && (a.Send? || a.Resume?) && target < |s.schedulers|
      && Route(s.tasks[t], target) < |s.schedulers|
    case Deliver(i, t, q) =>
      i < |s.schedulers| && t in Pushes(s.schedulers[i], q)
    case IoCallback(i, t, k) =>
      (At(s, i, LoopTop) || At(s, i, OwnedPoll)) && t < |s.tasks| && k < |s.tasks[t].frames|
      && s.tasks[t].frames[k].io.Some? && s.tasks[t].frames[k].io.value.scheduler == i
      && Route(s.tasks[t], i) < |s.schedulers|
    case RunCode(i, a) =>
      At(s, i, Code) && HasCurrent(s, i) && Tasks.ByCode(a) && Tasks.Guard(Current(s, i), a)
      && (a.Pin? ==> a.scheduler == i) && (a.AwaitIo? ==> a.scheduler == i)
    case Suspend(i) => At(s, i, Code) && HasCurrent(s, i) && Tasks.Settled(Current(s, i).phase)
    case EnterOwned(i) => At(s, i, OwnedPoll)
    case Dequeue(i, q) =>
      (At(s, i, LoopPick) || At(s, i, OwnedPick)) && s.schedulers[i].current.None?
      && Queue(s.schedulers[i], q) != []
    case Steal(i, j, q) =>
      (At(s, i, LoopPick) || At(s, i, OwnedPick)) && s.schedulers[i].current.None?
      && j < |s.schedulers| && Queue(s.schedulers[j], q) != []
      && (var back := Last(Queue(s.schedulers[j], q)); back < |s.tasks| && s.tasks[back].pin.None?)
    case Idle(i) => At(s, i, LoopPick) && s.schedulers[i].current.None?
    case Finish(i) =>
      (At(s, i, LoopTop) || At(s, i, Arrived))
      && (s.schedulers[i].suspending.Some? ==> HasSuspending(s, i))
    case StartTask(i) =>
      At(s, i, LoopPick) && HasCurrent(s, i) && s.schedulers[i].unowned.Some?
      && (Current(s, i).status.Starting? || Current(s, i).status.Listening?)
    case JumpFromLoop(i) => At(s, i, LoopPick) && HasCurrent(s, i) && Current(s, i).status.Suspended?
    case JumpToLoop(i) =>
      At(s, i, OwnedPick) && HasSuspending(s, i)
      && (s.schedulers[i].current.None?
          || (HasCurrent(s, i) && (Current(s, i).status.Starting? || Current(s, i).status.Listening?)))
    case JumpToTask(i) =>
      At(s, i, OwnedPick) && HasSuspending(s, i) && HasCurrent(s, i) && Current(s, i).status.Suspended?
    case StashUnowned(i) => At(s, i, Stashing)
    case ContinueTask(i) => At(s, i, Ready) && HasCurrent(s, i)
    case ReturnTask(i) =>
      At(s, i, Code) && HasCurrent(s, i) && Current(s, i).stack.Some?
      && Tasks.Guard(Current(s, i), Tasks.Return)
  }

  function Last(q: seq<nat>): nat
    requires q != []
  {
    q[|q| - 1]
  }

  function DoCreate(s: State, home: Option<nat>): State {
    s.(tasks := s.tasks + [Tasks.NewTask(home)])
  }

  /** A send or a resume of task t, with the push left in flight at the scheduler it is routed to. */
  function DoResume(s: State, t: nat, x: Task, k: nat): State
    requires t < |s.tasks| && k < |s.schedulers|
  {
    var task := s.tasks[t];
    Put(s, k, if Tasks.Resumable(task) then Pushing(s.schedulers[k], t, task.status) else s.schedulers[k], t, x)
  }

  /** A push reaches its queue, at the front. */
  function Delivered(c: Scheduler, t: nat, q: Class): Scheduler {
    if q.Soft? then c.(softPushes := c.softPushes - multiset{t}, soft := [t] + c.soft)
    else c.(hardPushes := c.hardPushes - multiset{t}, hard := [t] + c.hard)
  }

  function DoDeliver(s: State, i: nat, t: nat, q: Class): State
    requires i < |s.schedulers|
  {
    Place(s, i, Delivered(s.schedulers[i], t, q))
  }

  /** dequeueSoft, dequeueHard: the front of the scheduler's own queue becomes the current task. */
  function Dequeued(c: Scheduler, q: Class): Scheduler
    requires Queue(c, q) != []
  {
    WithQueue(c, q, Queue(c, q)[1..]).(current := Some(Queue(c, q)[0]))
  }

  function DoDequeue(s: State, i: nat, q: Class): State
    requires i < |s.schedulers| && Queue(s.schedulers[i], q) != []
  {
    Place(s, i, Dequeued(s.schedulers[i], q))
  }

  /** The victim of a steal without the last task of its queue. */
  function Robbed(c: Scheduler, q: Class): Scheduler
    requires Queue(c, q) != []
  {
    WithQueue(c, q, Queue(c, q)[..|Queue(c, q)| - 1])
  }

  /** stealSoft, stealHard: scheduler i takes the back of a queue of scheduler j. */
  function DoSteal(s: State, i: nat, j: nat, q: Class): State
    requires i < |s.schedulers| && j < |s.schedulers| && Queue(s.schedulers[j], q) != []
  {
    var s1 := Place(s, j, Robbed(s.schedulers[j], q));
    Place(s1, i, s1.schedulers[i].(current := Some(Last(Queue(s.schedulers[j], q)))))
  }

  /** The scheduler's side of finishSuspending, when the task is not rescheduled. */
  function Finished(c: Scheduler): Scheduler {
    c.(pc := if c.pc.LoopTop? then LoopPick else Stashing, suspending := None)
  }

  function DoFinish(s: State, i: nat): State
    requires i < |s.schedulers| && (s.schedulers[i].suspending.Some? ==> HasSuspending(s, i))
  {
    var c := s.schedulers[i];
    var next := Finished(c);
    if c.suspending.None? then Place(s, i, next)
    else
      var t := c.suspending.value;
      var x := Tasks.FinishedSuspending(s.tasks[t]);
      Put(s, i, if x.scheduled then Pushing(next, t, Tasks.Suspended) else next, t, x)
  }

  function DoStart(s: State, i: nat): State
    requires HasCurrent(s, i) && s.schedulers[i].unowned.Some?
  {
    var c := s.schedulers[i];
    Put(s, i, c.(pc := Code, unowned := None), c.current.value, Tasks.Started(Current(s, i), c.unowned.value))
  }

  function DoJumpToLoop(s: State, i: nat): State
    requires HasSuspending(s, i)
  {
    var c := s.schedulers[i];
    var (context, stash, contexts) := StashGet(c.stash, s.contexts);
    var t := c.suspending.value;
    Put(s, i, c.(pc := LoopTop, unowned := Some(context), stash := stash), t, s.tasks[t].(saved := true))
    .(contexts := contexts)
  }

  function DoJumpToTask(s: State, i: nat): State
    requires HasSuspending(s, i)
  {
    var c := s.schedulers[i];
    var t := c.suspending.value;
    Put(s, i, c.(pc := Arrived), t, s.tasks[t].(saved := true))
  }

  function DoStash(s: State, i: nat): State
    requires i < |s.schedulers|
  {
    var c := s.schedulers[i];
    if c.unowned.None? then Place(s, i, c.(pc := Ready))
    else
      var (stash, freed) := StashPut(c.stash, c.unowned.value);
      Place(s, i, c.(pc := Ready, unowned := None, stash := stash)).(freed := s.freed + freed)
  }

  function DoReturn(s: State, i: nat): State
    requires HasCurrent(s, i) && Current(s, i).stack.Some?
  {
    var c := s.schedulers[i];
    var t := c.current.value;
    var x := Tasks.Returned(Current(s, i));
    var next := c.(pc := LoopTop, current := None, unowned := Current(s, i).stack);
    Put(s, i, if x.scheduled then Pushing(next, t, Tasks.Listening) else next, t, x)
  }

  function Apply(s: State, step: Step): State
    requires Enabled(s, step)
  {
    match step
    case Create(home) => DoCreate(s, home)
    case External(t, a, target) => DoResume(s, t, Tasks.Apply(s.tasks[t], a), Route(s.tasks[t], target))
    case IoCallback(i, t, k) => DoResume(s, t, Tasks.Completed(s.tasks[t], k), Route(s.tasks[t], i))
    case Deliver(i, t, q) => DoDeliver(s, i, t, q)
    case RunCode(i, a) => Put(s, i, s.schedulers[i], s.schedulers[i].current.value, Tasks.Apply(Current(s, i), a))
    case Suspend(i) => Place(s, i, s.schedulers[i].(pc := OwnedPoll))
    case EnterOwned(i) =>
      Place(s, i, s.schedulers[i].(pc := OwnedPick, suspending := s.schedulers[i].current, current := None))
    case Dequeue(i, q) => DoDequeue(s, i, q)
    case Steal(i, j, q) => DoSteal(s, i, j, q)
    case Idle(i) => Place(s, i, s.schedulers[i].(pc := LoopTop))
    case Finish(i) => DoFinish(s, i)
    case StartTask(i) => DoStart(s, i)
    case JumpFromLoop(i) => Place(s, i, s.schedulers[i].(pc := Arrived))
    case JumpToLoop(i) => DoJumpToLoop(s, i)
    case JumpToTask(i) => DoJumpToTask(s, i)
    case StashUnowned(i) => DoStash(s, i)
    case ContinueTask(i) =>
      Put(s, i, s.schedulers[i].(pc := Code), s.schedulers[i].current.value, Tasks.Continued(Current(s, i)))
    case ReturnTask(i) => DoReturn(s, i)
  }

  /** Whether a sequence of steps is a run of the runtime from s. */
  predicate Legal(s: State, steps: seq<Step>)
    decreases |steps|
  {
    steps == [] || (Enabled(s, steps[0]) && Legal(Apply(s, steps[0]), steps[1..]))
  }

  /** The state a run ends in. */
  function After(s: State, steps: seq<Step>): State
    requires Legal(s, steps)
    decreases |steps|
  {
    if steps == [] then s else After(Apply(s, steps[0]), steps[1..])
  }

  // ------------------------------------------------------------------ the invariant

  function One(o: Option<nat>, t: nat): nat { if o == Some(t) then 1 else 0 }

  /** The claims scheduler c holds on running task t: pushes, queue slots, taken or running. */
  function Claim(c: Scheduler, t: nat): nat {
    multiset(c.soft)[t] + multiset(c.hard)[t] + c.softPushes[t] + c.hardPushes[t]
    + One(c.current, t) + One(c.suspending, t)
  }

  function Claims(cs: seq<Scheduler>, t: nat): nat {
    if cs == [] then 0 else Claim(cs[0], t) + Claims(cs[1..], t)
  }

  /** The claims a task's own fields call for. */
  function Weight(t: Task): nat { if t.scheduled || t.status.Running? then 1 else 0 }

  function Held(c: Scheduler, k: nat): nat { multiset(c.stash)[k] + One(c.unowned, k) }

  function HeldBySchedulers(cs: seq<Scheduler>, k: nat): nat {
    if cs == [] then 0 else Held(cs[0], k) + HeldBySchedulers(cs[1..], k)
  }

  function HeldByTasks(ts: seq<Task>, k: nat): nat {
    if ts == [] then 0 else One(ts[0].stack, k) + HeldByTasks(ts[1..], k)
  }

  /** How many places hold stack context k. */
  function Holders(s: State, k: nat): nat {
    HeldBySchedulers(s.schedulers, k) + HeldByTasks(s.tasks, k) + s.freed[k]
  }

  ghost predicate PinAllows(t: Task, k: nat) { t.pin.None? || t.pin == Some(k) }

  ghost predicate Queued(ts: seq<Task>, u: nat, k: nat, q: Class) {
    u < |ts| && ts[u].scheduled && PinAllows(ts[u], k)
    && (if q.Soft? then ts[u].status.Starting? || ts[u].status.Listening? else ts[u].status.Suspended?)
  }

  ghost predicate Taken(ts: seq<Task>, u: nat, k: nat) {
    Queued(ts, u, k, Soft) || Queued(ts, u, k, Hard)
  }

  ghost predicate RunningAt(ts: seq<Task>, u: nat, k: nat, saved: bool) {
    u < |ts| && ts[u].status.Running? && ts[u].saved == saved && PinAllows(ts[u], k)
  }

  ghost predicate QueuesOk(c: Scheduler, k: nat, ts: seq<Task>) {
    && (forall u :: u in c.soft ==> Queued(ts, u, k, Soft))
    && (forall u :: u in c.hard ==> Queued(ts, u, k, Hard))
    && (forall u :: u in c.softPushes ==> Queued(ts, u, k, Soft))
    && (forall u :: u in c.hardPushes ==> Queued(ts, u, k, Hard))
    && |c.stash| <= STASH_SIZE
  }

  ghost predicate ThreadOk(c: Scheduler, k: nat, ts: seq<Task>) {
    match c.pc
    case LoopTop =>
      c.unowned.Some? && (c.current.Some? ==> Queued(ts, c.current.value, k, Soft))
      && (c.suspending.Some? ==> RunningAt(ts, c.suspending.value, k, true))
    case LoopPick =>
      c.unowned.Some? && c.suspending.None? && (c.current.Some? ==> Taken(ts, c.current.value, k))
    case Code =>
      c.unowned.None? && c.suspending.None? && c.current.Some? && RunningAt(ts, c.current.value, k, false)
    case OwnedPoll =>
      c.unowned.None? && c.suspending.None? && c.current.Some? && RunningAt(ts, c.current.value, k, false)
      && Tasks.Settled(ts[c.current.value].phase)
    case OwnedPick =>
      c.unowned.None? && c.suspending.Some? && RunningAt(ts, c.suspending.value, k, false)
      && Tasks.Settled(ts[c.suspending.value].phase)
      && (c.current.Some? ==> Taken(ts, c.current.value, k))
    case Arrived =>
      c.current.Some? && Queued(ts, c.current.value, k, Hard) && !(c.unowned.Some? && c.suspending.Some?)
      && (c.suspending.Some? ==> RunningAt(ts, c.suspending.value, k, true))
    case Stashing => c.current.Some? && Queued(ts, c.current.value, k, Hard) && c.suspending.None?
    case Ready =>
      c.current.Some? && Queued(ts, c.current.value, k, Hard) && c.suspending.None? && c.unowned.None?
  }

  ghost predicate SchedulerOk(c: Scheduler, k: nat, ts: seq<Task>) {
    QueuesOk(c, k, ts) && ThreadOk(c, k, ts)
  }

  ghost predicate TaskOk(t: Task, n: nat) {
    Tasks.Inv(t) && (t.pin.Some? ==> t.pin.value < n) && (t.home.Some? ==> t.home.value < n)
  }

  ghost predicate TasksOk(s: State) {
    forall t :: 0 <= t < |s.tasks| ==> TaskOk(s.tasks[t], |s.schedulers|)
  }

  ghost predicate SchedulersOk(s: State) {
    forall i :: 0 <= i < |s.schedulers| ==> SchedulerOk(s.schedulers[i], i, s.tasks)
  }

  /** Each task has exactly the claims its fields call for, and none beyond the tasks created. */
  ghost predicate ClaimsOk(s: State) {
    forall t: nat :: Claims(s.schedulers, t) == if t < |s.tasks| then Weight(s.tasks[t]) else 0
  }

  /** Every context ever allocated is in exactly one place. */
  ghost predicate ContextsOk(s: State) {
    forall k: nat :: Holders(s, k) == if k < s.contexts then 1 else 0
  }

  ghost predicate Inv(s: State) {
    TasksOk(s) && SchedulersOk(s) && ClaimsOk(s) && ContextsOk(s)
  }
}
