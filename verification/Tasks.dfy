/**
 * One task as the runtime sees it: the status machine of task.hpp, the resume counters, the
 * mailbox and the pin.  Each action is one critical section under the task's spinlock (or one
 * write that only the executing thread makes); a run of a task is any sequence of actions.
 */
module Tasks {
  import opened Options

  /** Number of values of a uint64_t; counters are compared as 64-bit words. */
  const WORD: nat := 0x1_0000_0000_0000_0000

  /** numeric_limits<uint64_t>::max(), which yield() stores in resumesExpected. */
  const NEVER: nat := WORD - 1

  /** Adding one to a counter and to its word agree. */
  lemma WordUp(n: nat)
    ensures (n + 1) % WORD == (n % WORD + 1) % WORD
  {
    var q, r := n / WORD, n % WORD;
    assert n == q * WORD + r;
    if r + 1 == WORD {
      assert n + 1 == (q + 1) * WORD;
    } else {
      assert n + 1 == q * WORD + (r + 1);
    }
  }

  datatype Status = Starting | Running | Suspended | Listening | Dead

  /**
   * What the executing code did last, as far as suspending is concerned.
   * Checked: processUntil read a false IO condition and has dispatched nothing since.
   * Processed, Awaiting: process() or processUntil() found the mailbox drained and recorded
   * resumesExpected.  Yielded: yield() stored NEVER.  Busy: anything else.
   */
  datatype Phase = Busy | Checked | Processed | Awaiting | Yielded

  datatype Event = Event(path: nat, payload: nat)

  /** The await-mode request of a frame: the scheduler whose loop owns it, and its condition flag. */
  datatype Io = Io(scheduler: nat, condition: bool)

  /** A live ScopedPin on the task's stack, with the await-mode request it protects, if any. */
  datatype Frame = Frame(wasPinned: bool, io: Option<Io>)

  /**
   * resumes counts without wrapping; the code compares its low 64 bits.  expected is None until
   * resumesExpected is first written.  enqueued and dispatched are the histories of the mailbox,
   * home the pin the task was built with, frames its live ScopedPins (outermost first), saved
   * says that `context` holds the suspended computation, stack is the stack context the task
   * owns and runs counts the calls of its runnable.
   */
  datatype Task = Task(
    status: Status, scheduled: bool, resumes: nat, expected: Option<nat>, stopped: bool,
    mailbox: seq<Event>, enqueued: seq<Event>, dispatched: seq<Event>,
    pin: Option<nat>, home: Option<nat>, frames: seq<Frame>,
    phase: Phase, saved: bool, stack: Option<nat>, runs: nat)

  function NewTask(home: Option<nat>): Task {
    Task(Starting, false, 0, None, false, [], [], [], home, home, [], Busy, false, None, 0)
  }

  predicate Resumable(t: Task) {
    (t.status.Suspended? || t.status.Starting? || t.status.Listening?) && !t.scheduled
  }

  /** Whether resumes != resumesExpected as 64-bit words; an unwritten word compares arbitrarily. */
  predicate Stale(t: Task) {
    t.expected.None? || t.resumes % WORD != t.expected.value % WORD
  }

  /** The task's side of MultiTaskScheduler::resume. */
  function Rescheduled(t: Task): Task {
    t.(resumes := t.resumes + 1, scheduled := true)
  }

  /** The task's side of context::detail::resume: a second increment when the task is rescheduled. */
  function Resumed(t: Task): Task {
    var u := t.(resumes := t.resumes + 1);
    if Resumable(t) then Rescheduled(u) else u
  }

  function Sent(t: Task, e: Event): Task {
    Resumed(t.(mailbox := t.mailbox + [e], enqueued := t.enqueued + [e]))
  }

  function FinishedSuspending(t: Task): Task {
    var u := t.(status := Suspended, scheduled := false);
    if Stale(u) then Rescheduled(u) else u
  }

  /** The end of an unownedLoop iteration; the deleted task of a kill is kept as Dead. */
  function Returned(t: Task): Task {
    if t.stopped then
      t.(status := Dead, scheduled := false, stack := None, phase := Busy)
    else
      var u := t.(status := Listening, stack := None);
      if Stale(u) then Rescheduled(u) else u
  }

  function Started(t: Task, context: nat): Task {
    t.(status := Running, scheduled := false, stack := Some(context), saved := false,
    phase := Busy, runs := if t.status.Starting? then t.runs + 1 else t.runs)
  }

  function Continued(t: Task): Task {
    t.(status := Running, scheduled := false, saved := false, phase := Busy)
  }

  function Top(t: Task): Option<Io> {
    if t.frames == [] then None else t.frames[|t.frames| - 1].io
  }

  function Pinned(t: Task, scheduler: nat, io: Option<Io>): Task {
    t.(pin := if t.pin.None? then Some(scheduler) else t.pin,
    frames := t.frames + [Frame(t.pin.Some?, io)], phase := Busy)
  }

  datatype Action =
      // any thread
    | Send(event: Event)
    | Resume
    | Callback(frame: nat)
      // the code of the task, on the scheduler that executes it
    | Work
    | Dispatch
    | Process
    | CheckIo
    | ProcessIo
    | Yield
    | Stop
    | Pin(scheduler: nat)
    | AwaitIo(scheduler: nat)
    | Unwind
      // the scheduler
    | Start(context: nat)
    | Park
    | FinishSuspending
    | Continue
    | Return

  predicate ByAnyone(a: Action) { a.Send? || a.Resume? || a.Callback? }

  predicate ByCode(a: Action) {
    a.Work? || a.Dispatch? || a.Process? || a.CheckIo? || a.ProcessIo? || a.Yield? || a.Stop?
    || a.Pin? || a.AwaitIo? || a.Unwind?
  }

  /** The phases in which suspend() is called. */
  predicate Settled(p: Phase) { p.Processed? || p.Awaiting? || p.Yielded? }

  /** When the code can perform an action. */
  predicate Guard(t: Task, a: Action) {
    match a
    case Send(_) => true
    case Resume => true
    case Callback(k) => k < |t.frames| && t.frames[k].io.Some?
    case Work => Executing(t)
    case Dispatch => Executing(t) && t.mailbox != []
    case Process => Executing(t) && (t.mailbox == [] || t.stopped)
    case CheckIo => Executing(t) && Top(t).Some? && !Top(t).value.condition
    case ProcessIo => Executing(t) && t.phase.Checked? && t.mailbox == []
    case Yield => Executing(t)
    case Stop => Executing(t)
    case Pin(_) => Executing(t)
    case AwaitIo(_) => Executing(t)
    case Unwind => Executing(t) && t.frames != []
    case Start(_) => t.scheduled && (t.status.Starting? || t.status.Listening?)
    case Park => Executing(t) && Settled(t.phase)
    case FinishSuspending => t.status.Running? && t.saved
    case Continue => t.scheduled && t.status.Suspended?
    case Return => Executing(t) && t.frames == [] && (t.stopped || t.phase.Processed?)
  }

  predicate Executing(t: Task) { t.status.Running? && !t.saved }

  /**
   * What an action relies on from where the task is run: a pin is taken on the scheduler the
   * task is already pinned to, and no IO callback runs between the test of the condition and
   * the write of resumesExpected.  The runtime invariant establishes both.
   */
  predicate Placed(t: Task, a: Action) {
    match a
    case Pin(s) => t.pin.None? || t.pin == Some(s)
    case AwaitIo(s) => t.pin.None? || t.pin == Some(s)
    case Callback(_) => !t.phase.Checked?
    case _ => true
  }

  function Completed(t: Task, k: nat): Task
    requires k < |t.frames| && t.frames[k].io.Some?
  {
    var f := t.frames[k];
    Resumed(t.(frames := t.frames[k := f.(io := Some(f.io.value.(condition := true)))]))
  }

  function Unwound(t: Task): Task
    requires t.frames != []
  {
    var n := |t.frames| - 1;
    t.(pin := if t.frames[n].wasPinned then t.pin else None, frames := t.frames[..n], phase := Busy)
  }

  function Apply(t: Task, a: Action): Task
    requires Guard(t, a)
  {
    match a
    case Send(e) => Sent(t, e)
    case Resume => Resumed(t)
    case Callback(k) => Completed(t, k)
    case Work => t.(phase := Busy)
    case Dispatch =>
      t.(mailbox := t.mailbox[1..], dispatched := t.dispatched + [t.mailbox[0]], phase := Busy)
    case Process => t.(expected := Some(t.resumes), phase := Processed)
    case CheckIo => t.(phase := Checked)
    case ProcessIo => t.(expected := Some(t.resumes), phase := Awaiting)
    case Yield => t.(expected := Some(NEVER), phase := Yielded)
    case Stop => t.(stopped := true, phase := Busy)
    case Pin(s) => Pinned(t, s, None)
    case AwaitIo(s) => Pinned(t, s, Some(Io(s, false)))
    case Unwind => Unwound(t)
    case Start(c) => Started(t, c)
    case Park => t.(saved := true)
    case FinishSuspending => FinishedSuspending(t)
    case Continue => Continued(t)
    case Return => Returned(t)
  }

  /** The resume protocol: when a task may sleep. */
  ghost predicate Wakeful(t: Task) {
    && (Settled(t.phase) ==> t.expected.Some?)
    && (t.phase.Yielded? ==> t.expected == Some(NEVER))
    && (t.phase.Processed? || t.phase.Awaiting? ==>
          t.expected.value <= t.resumes
          && (t.expected.value == t.resumes ==> t.mailbox == [] || t.stopped))
    && (t.phase.Checked? || t.phase.Awaiting? ==> Top(t).Some?)
    && (t.phase.Checked? ==> !Top(t).value.condition)
    && (t.phase.Awaiting? && t.expected.value == t.resumes ==> !Top(t).value.condition)
    && (t.status.Suspended? || t.status.Listening? ==> Settled(t.phase))
    && (t.status.Listening? ==> t.phase.Processed? && !t.stopped)
    && (Asleep(t) ==> t.expected.Some? && t.resumes % WORD == t.expected.value % WORD)
  }

  predicate Asleep(t: Task) { (t.status.Suspended? || t.status.Listening?) && !t.scheduled }

  /** The status machine. */
  ghost predicate Lifecycle(t: Task) {
    && (t.scheduled ==> t.status.Starting? || t.status.Listening? || t.status.Suspended?)
    && t.runs == (if t.status.Starting? then 0 else 1)
    && (t.stack.Some? <==> t.status.Running? || t.status.Suspended?)
    && (t.status.Suspended? ==> t.saved)
    && (t.status.Running? && t.saved ==> Settled(t.phase))
    && (t.phase.Checked? ==> Executing(t))
    && (t.status.Starting? || t.status.Listening? ==> !t.saved)
    && (t.frames != [] ==> t.status.Running? || t.status.Suspended?)
  }

  /** Nesting of the live ScopedPins. */
  ghost predicate PinsNest(t: Task) {
    && (forall k :: 0 <= k < |t.frames| ==> t.frames[k].wasPinned == (k > 0 || t.home.Some?))
    && (forall k :: 0 <= k < |t.frames| && t.frames[k].io.Some? ==> t.pin == Some(t.frames[k].io.value.scheduler))
    && (t.frames != [] ==> t.pin.Some?)
    && (t.frames == [] || t.home.Some? ==> t.pin == t.home)
  }

  /** Events leave the mailbox in the order in which they entered it. */
  ghost predicate InOrder(t: Task) { t.dispatched + t.mailbox == t.enqueued }

  ghost predicate Inv(t: Task) {
    Wakeful(t) && Lifecycle(t) && PinsNest(t) && InOrder(t)
  }

  lemma KeepsOrder(t: Task, a: Action)
    requires InOrder(t) && Guard(t, a)
    ensures InOrder(Apply(t, a))
  {
    match a
    case Dispatch =>
      assert t.mailbox == [t.mailbox[0]] + t.mailbox[1..];
    case Send(e) =>
      assert t.dispatched + (t.mailbox + [e]) == (t.dispatched + t.mailbox) + [e];
    case _ =>
  }

  lemma PinKeepsPins(t: Task, scheduler: nat, io: Option<Io>)
    requires PinsNest(t) && (t.pin.None? || t.pin == Some(scheduler))
    requires io.Some? ==> io.value.scheduler == scheduler
    ensures PinsNest(Pinned(t, scheduler, io))
  {
  }

  lemma UnwindKeepsPins(t: Task)
    requires PinsNest(t) && t.frames != []
    ensures PinsNest(Unwound(t))
  {
  }

  lemma CallbackKeepsPins(t: Task, k: nat)
    requires PinsNest(t) && k < |t.frames| && t.frames[k].io.Some?
    ensures PinsNest(Completed(t, k))
  {
  }

  /** An action that leaves the pins alone keeps them nested. */
  lemma OthersKeepPins(t: Task, x: Task)
    requires PinsNest(t) && x.frames == t.frames && x.pin == t.pin && x.home == t.home
    ensures PinsNest(x)
  {
  }

  lemma KeepsPins(t: Task, a: Action)
    requires PinsNest(t) && Guard(t, a) && Placed(t, a)
    ensures PinsNest(Apply(t, a))
  {
    match a
    case Pin(s) => PinKeepsPins(t, s, None);
    case AwaitIo(s) => PinKeepsPins(t, s, Some(Io(s, false)));
    case Unwind => UnwindKeepsPins(t);
    case Callback(k) => CallbackKeepsPins(t, k);
    case _ => OthersKeepPins(t, Apply(t, a));
  }

  lemma KeepsLifecycle(t: Task, a: Action)
    requires Lifecycle(t) && Wakeful(t) && Guard(t, a) && Placed(t, a)
    ensures Lifecycle(Apply(t, a))
  {
  }

  lemma AnyoneKeepsWakeful(t: Task, a: Action)
    requires Wakeful(t) && Lifecycle(t) && Guard(t, a) && Placed(t, a) && ByAnyone(a)
    ensures Wakeful(Apply(t, a))
  {
  }

  lemma CodeKeepsWakeful(t: Task, a: Action)
    requires Wakeful(t) && Lifecycle(t) && Guard(t, a) && ByCode(a)
    ensures Wakeful(Apply(t, a))
  {
  }

  lemma SchedulerKeepsWakeful(t: Task, a: Action)
    requires Wakeful(t) && Lifecycle(t) && Guard(t, a) && !ByCode(a) && !ByAnyone(a)
    ensures Wakeful(Apply(t, a))
  {
  }

  /** Every action keeps the protocol, whoever performs it. */
  lemma Keeps(t: Task, a: Action)
    requires Inv(t) && Guard(t, a) && Placed(t, a)
    ensures Inv(Apply(t, a))
  {
    KeepsOrder(t, a);
    KeepsPins(t, a);
    KeepsLifecycle(t, a);
    if ByAnyone(a) {
      AnyoneKeepsWakeful(t, a);
    } else if ByCode(a) {
      CodeKeepsWakeful(t, a);
    } else {
      SchedulerKeepsWakeful(t, a);
    }
  }

  /**
   * When suspending loses a wakeup: a parked task is left asleep although it was resumed since
   * it last looked (or although it only yielded) exactly when the 64-bit counters coincide.
   */
  lemma SleepsExactlyWhen(t: Task)
    requires Inv(t) && t.status.Running? && t.saved
    ensures t.phase.Yielded? ==> (Asleep(FinishedSuspending(t)) <==> t.resumes % WORD == NEVER)
    ensures !t.phase.Yielded? ==>
              (Asleep(FinishedSuspending(t)) <==> (t.resumes - t.expected.value) % WORD == 0)
  {
    WordsDiffer(t.resumes, t.expected.value);
  }

  /**
   * What a sleeping task has seen, however long it has lived.  Its counters agree as words; one
   * that yielded sleeps only if its word is the marker; and one that processed its mailbox has
   * seen every resume and event, and waits for an incomplete request only, unless 2^64 resumes
   * or more came between that and its suspension.
   */
  lemma SleepersHaveSeenAll(t: Task)
    requires Inv(t) && Asleep(t)
    ensures t.expected.Some? && t.resumes % WORD == t.expected.value % WORD
    ensures t.phase.Yielded? ==> t.resumes % WORD == NEVER
    ensures !t.phase.Yielded? ==> t.expected.value == t.resumes || t.resumes >= t.expected.value + WORD
    ensures !t.phase.Yielded? && t.expected.value == t.resumes ==>
              (t.mailbox == [] || t.stopped) && (t.phase.Awaiting? ==> Top(t).Some? && !Top(t).value.condition)
  {
    WordsDiffer(t.resumes, t.expected.value);
  }

  /**
   * A task that yields after 2^64 - 1 resumes is left asleep until somebody resumes it: the counter
   * equals the marker.
   */
  lemma YieldCanBeLost(resumes: nat)
    requires resumes == NEVER
    ensures var t := NewTask(None).(status := Running, runs := 1, stack := Some(0), saved := true,
                                    resumes := resumes, expected := Some(NEVER), phase := Yielded);
            var u := FinishedSuspending(t);
            Inv(t) && Asleep(u) && Resumed(u).scheduled
  {
  }

  /**
   * How the runnable wrappers end a task: fibers and futures stop and are dead when they return;
   * an actor processes what is pending and then listens, scheduled again exactly if it was
   * resumed since, unless a handler stopped it.
   */
  lemma WrappersEndTasks(t: Task)
    requires Inv(t) && Executing(t) && t.frames == []
    ensures var u := Apply(t, Stop); Guard(u, Return) && Apply(u, Return).status.Dead?
    ensures t.phase.Processed? && !t.stopped ==>
              Guard(t, Return) && Apply(t, Return).status.Listening?
              && (Apply(t, Return).scheduled <==> (t.resumes - t.expected.value) % WORD != 0)
    ensures t.phase.Processed? && t.stopped ==> Guard(t, Return) && Apply(t, Return).status.Dead?
  {
    if t.phase.Processed? {
      WordsDiffer(t.resumes, t.expected.value);
    }
  }

  function ResumedTimes(t: Task, n: nat): Task {
    if n == 0 then t else Resumed(ResumedTimes(t, n - 1))
  }

  lemma {:induction false} ResumedRunning(t: Task, n: nat)
    requires t.status.Running?
    ensures ResumedTimes(t, n) == t.(resumes := t.resumes + n)
  {
    if n > 0 {
      ResumedRunning(t, n - 1);
    }
  }

  /**
   * Code is about to suspend only right after it has recorded the resumes it has seen, or yielded:
   * what others do meanwhile does not matter, and anything else it does itself, running again
   * included, makes it look once more.
   */
  lemma SuspendsOnlyAfterLook(t: Task, a: Action)
    requires Lifecycle(t) && Guard(t, a) && Executing(Apply(t, a))
    ensures Guard(Apply(t, a), Park) <==>
            a.Process? || a.ProcessIo? || a.Yield? || (ByAnyone(a) && Guard(t, Park))
  {
  }

  /**
   * A task that finds its mailbox drained, in process() or processUntil(), and then suspends sleeps
   * if and only if it was not resumed in between, up to multiples of 2^64; and so does an actor
   * that returns to listen.
   */
  lemma SleepsUnlessResumed(t: Task, a: Action, n: nat)
    requires Lifecycle(t) && Guard(t, a) && (a.Process? || a.ProcessIo?)
    ensures var u := ResumedTimes(Apply(t, a), n);
            Guard(u, Park) && Guard(Apply(u, Park), FinishSuspending)
            && (Asleep(Apply(Apply(u, Park), FinishSuspending)) <==> n % WORD == 0)
    ensures a.Process? && t.frames == [] && !t.stopped ==>
              var u := ResumedTimes(Apply(t, a), n);
              Guard(u, Return) && (Asleep(Apply(u, Return)) <==> n % WORD == 0)
  {
    ResumedRunning(Apply(t, a), n);
    var u := ResumedTimes(Apply(t, a), n);
    StaleAfter(u.(saved := true, status := Suspended, scheduled := false), t.resumes, n);
    StaleAfter(u.(status := Listening, stack := None), t.resumes, n);
  }

  lemma StaleAfter(t: Task, seen: nat, n: nat)
    requires t.expected == Some(seen) && t.resumes == seen + n
    ensures Stale(t) <==> n % WORD != 0
  {
    WordsDiffer(t.resumes, seen);
    assert t.resumes - seen == n;
  }

  lemma WordsDiffer(r: nat, e: nat)
    ensures r % WORD == e % WORD <==> (r - e) % WORD == 0
  {
    var q, p := r / WORD, e / WORD;
    assert r == q * WORD + r % WORD && e == p * WORD + e % WORD;
    if r % WORD == e % WORD {
      assert r - e == (q - p) * WORD;
    }
  }
}
